/** The payment and order tables updated in place, each method proved against its transaction. */
module CardRepository {
  import opened Common
  import opened Ledger
  import opened CaptureJournal
  import opened CardPath
  import opened CardInvariants
  import opened CardRuns
  import opened CardTheorems
  import opened CardLaws
  import PD = PaymentDomain
  import OD = OrderDomain

  // What the auto-capture sweep promises

  predicate CaptureDue(db: Db, id: string)
  {
    && id in db.payments && db.payments[id].status == PD.Authorized
    && db.payments[id].autoCaptureAt.Some? && db.payments[id].autoCaptureAt.value <= db.now
  }

  predicate Earlier(db: Db, i: string, j: string)
  {
    CaptureDue(db, i) && CaptureDue(db, j) && db.payments[i].autoCaptureAt.value < db.payments[j].autoCaptureAt.value
  }

  /** The earliest due payment; the first of them when two are due at once. */
  ghost predicate IsNextDue(db: Db, id: string)
  {
    CaptureDue(db, id) && forall k :: CaptureDue(db, k) ==> !Earlier(db, k, id)
  }

  predicate Capturable(db: Db, id: string)
  {
    && id in db.payments && db.payments[id].amount >= 50
    && 100 * SplitTotal(db.payments[id].splits) < 98 * db.payments[id].amount + 100
    && !SourceUsed(db.txns, PaymentCapture(id))
  }

  function CaptureOwnAmount(db: Db, id: string): Outcome
  {
    if id in db.payments then Capture(db, db.payments[id].merchant, id, db.payments[id].amount)
    else Outcome(db, Rejected(PaymentNotFound))
  }

  /** Captures payments one after the other, each for its own amount. */
  function CaptureAll(db: Db, ids: seq<string>): Db
  {
    if |ids| == 0 then db else CaptureOwnAmount(CaptureAll(db, ids[..|ids| - 1]), ids[|ids| - 1]).db
  }

  /** The due payments in strictly increasing due time. */
  ghost predicate ListsDue(db: Db, due: seq<string>)
  {
    && (forall id :: CaptureDue(db, id) <==> id in due)
    && (forall i, j :: 0 <= i < j < |due| ==> Earlier(db, due[i], due[j]))
  }

  lemma {:induction false} EarliestOf(db: Db, ids: set<string>) returns (id: string)
    requires ids != {} && forall k :: k in ids ==> CaptureDue(db, k)
    ensures id in ids && forall k :: k in ids ==> !Earlier(db, k, id)
    decreases |ids|
  {
    var any :| any in ids;
    id := any;
    if ids - {any} != {} {
      var other := EarliestOf(db, ids - {any});
      if Earlier(db, other, any) { id := other; }
      assert forall k :: k in ids ==> k == any || k in ids - {any};
    } else {
      assert forall k :: k in ids ==> k == any;
    }
  }

  lemma {:induction false} ListOf(db: Db, ids: set<string>) returns (due: seq<string>)
    requires forall k :: k in ids ==> CaptureDue(db, k)
    requires forall j, k :: j in ids && k in ids && j != k ==> Earlier(db, j, k) || Earlier(db, k, j)
    ensures forall k :: k in due <==> k in ids
    ensures forall i, j :: 0 <= i < j < |due| ==> Earlier(db, due[i], due[j])
    decreases |ids|
  {
    due := [];
    if ids != {} {
      var first := EarliestOf(db, ids);
      var rest := ListOf(db, ids - {first});
      assert forall k :: k in rest ==> Earlier(db, first, k);
      due := [first] + rest;
      assert forall k :: k in due <==> k == first || k in rest;
    }
  }

  /** Due payments at pairwise different instants can be listed in order. */
  lemma DistinctTimesAreListed(db: Db) returns (due: seq<string>)
    requires forall j, k :: CaptureDue(db, j) && CaptureDue(db, k) && j != k ==> Earlier(db, j, k) || Earlier(db, k, j)
    ensures ListsDue(db, due)
  {
    due := ListOf(db, set k | k in db.payments && CaptureDue(db, k));
  }

  /** The longest capturable prefix of a list, cut at fifty. */
  predicate IsCapturablePrefix(db: Db, due: seq<string>, picked: seq<string>)
  {
    && |picked| <= |due| && |picked| <= 50 && picked == due[..|picked|]
    && (forall i :: 0 <= i < |picked| ==> Capturable(db, due[i]))
    && (|picked| == 50 || |picked| == |due| || !Capturable(db, due[|picked|]))
  }

  /** Rows after a sweep captured some payments. */
  predicate RowsSwept(db: Db, mid: Db, picked: seq<string>)
  {
    && mid.now == db.now && mid.payments.Keys == db.payments.Keys
    && forall k :: k in db.payments ==>
         if k in picked then mid.payments[k].status == PD.Captured else mid.payments[k] == db.payments[k]
  }

  /** The sweep posts under no source but those of the payments it captures. */
  ghost predicate SourcesSwept(db: Db, mid: Db, picked: seq<string>)
  {
    forall k :: k !in picked ==> (SourceUsed(mid.txns, PaymentCapture(k)) <==> SourceUsed(db.txns, PaymentCapture(k)))
  }

  lemma OneMoreSource(db: Db, mid: Db, picked: seq<string>, id: string, t: Txn)
    requires SourcesSwept(db, mid, picked) && id in mid.payments && t.source == PaymentCapture(id)
    ensures SourcesSwept(db, CaptureRows(mid, id, mid.txns + [t]), picked + [id])
  {
    forall k | k !in picked + [id]
      ensures SourceUsed(mid.txns + [t], PaymentCapture(k)) <==> SourceUsed(db.txns, PaymentCapture(k))
    {
      assert k !in picked && k != id by { assert id in picked + [id]; }
      UsedAfterAppend(mid.txns, t, PaymentCapture(k));
    }
  }

  /** With distinct due times the sweep works down the list and is held up only by a payment
      that cannot be captured. */
  ghost predicate DownTheList(db: Db, due: seq<string>, picked: seq<string>, turn: int)
  {
    ListsDue(db, due) ==>
      && |picked| <= |due| && picked == due[..|picked|]
      && (|picked| < turn ==> |picked| < |due| && !Capturable(db, due[|picked|]))
  }

  /** Where a sweep stands after some turns. */
  ghost predicate SweepSoFar(db: Db, mid: Db, due: seq<string>, picked: seq<string>, turn: int)
  {
    && RowsSwept(db, mid, picked) && SourcesSwept(db, mid, picked) && mid == CaptureAll(db, picked) && |picked| <= turn
    && RightlyPicked(db, picked) && DownTheList(db, due, picked, turn)
  }

  predicate RightlyPicked(db: Db, picked: seq<string>)
  {
    forall i :: 0 <= i < |picked| ==> CaptureDue(db, picked[i]) && Capturable(db, picked[i])
  }

  lemma OneMoreRow(db: Db, mid: Db, picked: seq<string>, id: string, t: Txn)
    requires RowsSwept(db, mid, picked) && id in mid.payments && id !in picked
    ensures RowsSwept(db, CaptureRows(mid, id, mid.txns + [t]), picked + [id])
  {
    assert forall k :: k in picked + [id] <==> k in picked || k == id;
  }

  lemma RowsAfterCapture(db: Db, mid: Db, picked: seq<string>, id: string) returns (written: bool, mid': Db)
    requires DbOk(mid) && RowsSwept(db, mid, picked) && SourcesSwept(db, mid, picked) && id !in picked && CaptureDue(mid, id)
    ensures mid' == CaptureOwnAmount(mid, id).db && DbOk(mid')
    ensures written <==> CaptureOwnAmount(mid, id).result == Written
    ensures written <==> Capturable(db, id)
    ensures if written then RowsSwept(db, mid', picked + [id]) && SourcesSwept(db, mid', picked + [id]) else mid' == mid
  {
    var p := mid.payments[id];
    CaptureSucceedsIff(mid, p.merchant, id);
    var t;
    written, t := CaptureShape(mid, p.merchant, id, p.amount);
    if written {
      mid' := CaptureRows(mid, id, mid.txns + [t]);
      CaptureRowsKeepDbOk(mid, id, t);
      OneMoreRow(db, mid, picked, id, t);
      OneMoreSource(db, mid, picked, id, t);
    } else {
      mid' := mid;
    }
  }

  /** The earliest payment still due is the first of the list not yet captured. */
  lemma NextOfList(db: Db, mid: Db, due: seq<string>, picked: seq<string>, id: string)
    requires RowsSwept(db, mid, picked) && IsNextDue(mid, id)
    requires ListsDue(db, due) && |picked| <= |due| && picked == due[..|picked|]
    ensures |picked| < |due| && due[|picked|] == id
  {
    assert CaptureDue(db, id);
    var i :| 0 <= i < |due| && due[i] == id;
    assert id !in picked;
    assert forall j :: 0 <= j < |picked| ==> due[j] == picked[j] != id;
    if i > |picked| {
      var k := due[|picked|];
      NotYetPicked(db, due, |picked|);
      assert Earlier(db, k, id);
      assert Earlier(mid, k, id);
      assert false;
    }
  }

  lemma NotYetPicked(db: Db, due: seq<string>, n: nat)
    requires n < |due| && forall i, j :: 0 <= i < j < |due| ==> Earlier(db, due[i], due[j])
    ensures due[n] !in due[..n]
  {
    forall j | 0 <= j < n ensures due[j] != due[n] {
      assert Earlier(db, due[j], due[n]);
    }
  }

  lemma ListAdvances(db: Db, mid: Db, due: seq<string>, picked: seq<string>, turn: int, id: string)
    requires RowsSwept(db, mid, picked) && IsNextDue(mid, id) && DownTheList(db, due, picked, turn) && |picked| <= turn
    ensures DownTheList(db, due, if Capturable(db, id) then picked + [id] else picked, turn + 1)
  {
    if ListsDue(db, due) {
      NextOfList(db, mid, due, picked, id);
      assert due[..|picked| + 1] == due[..|picked|] + [id];
    }
  }

  lemma AllCaptured(db: Db, mid: Db, picked: seq<string>, id: string)
    requires mid == CaptureAll(db, picked)
    ensures CaptureAll(db, picked + [id]) == CaptureOwnAmount(mid, id).db
  {
    assert (picked + [id])[..|picked|] == picked;
  }

  lemma PickedOneMore(db: Db, picked: seq<string>, id: string)
    requires RightlyPicked(db, picked) && CaptureDue(db, id)
    ensures Capturable(db, id) ==> RightlyPicked(db, picked + [id])
  {
  }

  lemma SweepTurns(db: Db, mid: Db, due: seq<string>, picked: seq<string>, turn: int, id: string)
    returns (picked': seq<string>, mid': Db)
    requires DbOk(mid) && SweepSoFar(db, mid, due, picked, turn) && IsNextDue(mid, id)
    ensures mid' == CaptureOwnAmount(mid, id).db && DbOk(mid')
    ensures picked' == if CaptureOwnAmount(mid, id).result == Written then picked + [id] else picked
    ensures SweepSoFar(db, mid', due, picked', turn + 1)
  {
    assert id !in picked && CaptureDue(db, id);
    var written;
    written, mid' := RowsAfterCapture(db, mid, picked, id);
    picked' := if written then picked + [id] else picked;
    assert mid' == CaptureAll(db, picked') by { AllCaptured(db, mid, picked, id); }
    assert RightlyPicked(db, picked') by { PickedOneMore(db, picked, id); }
    ListAdvances(db, mid, due, picked, turn, id);
  }

  lemma SweepEnds(db: Db, mid: Db, due: seq<string>, picked: seq<string>, turn: int)
    requires SweepSoFar(db, mid, due, picked, turn) && turn <= 50
    requires turn == 50 || forall k :: !CaptureDue(mid, k)
    ensures ListsDue(db, due) ==> IsCapturablePrefix(db, due, picked)
  {
    if ListsDue(db, due) {
      if |picked| < |due| && turn < 50 {
        NotYetPicked(db, due, |picked|);
        assert due[|picked|] in due;
        assert CaptureDue(mid, due[|picked|]);
        assert false;
      }
    }
  }

  class Repository {
    var orders: map<string, Order>
    var payments: map<string, Payment>
    var challenges: map<string, Challenge>
    var txns: seq<Txn>
    var events: seq<Event>
    var now: int

    ghost function State(): Db
      reads this
    {
      Db(orders, payments, challenges, txns, events, now)
    }

    constructor ()
      ensures State() == EMPTY.db
    {
      orders, payments, challenges, txns, events, now := map[], map[], map[], [], [], 0;
    }

    /** The outbox row joins the caller's transaction. */
    method WriteTx(e: Event)
      modifies this`events
      ensures events == old(events) + [e]
    {
      events := events + [e];
    }

    // Orders

    method CreateOrderRow(id: string, merchant: string, amount: int, currency: string, partial: bool) returns (r: Result)
      modifies this`orders, this`events
      ensures Outcome(State(), r) == CreateOrder(old(State()), id, merchant, amount, currency, partial)
    {
      if amount <= 0 || (currency != "INR" && currency != "USD") || TrimSpace(merchant) == "" {
        return Rejected(InvalidOrder);
      }
      if id in orders {
        return Rejected(Violation);
      }
      orders := orders[id := Order(merchant, amount, 0, amount, currency, OD.Created, partial, now + 1800 * SECOND)];
      WriteTx(Event(OrderCreated, id));
      r := Written;
    }

    method TouchOrder(merchant: string, order: string, from: OD.State, to: OD.State)
      modifies this`orders
      ensures orders == if OrderKnown(old(State()), merchant, order) && old(orders)[order].status == from
                        then old(orders)[order := old(orders)[order].(status := to)] else old(orders)
    {
      if order in orders && orders[order].merchant == merchant && orders[order].status == from {
        orders := orders[order := orders[order].(status := to)];
      }
    }

    method CreateFailedAttempt(merchant: string, order: string)
      modifies this`orders, this`events
      ensures State() == FailedAttempt(old(State()), merchant, order).db
    {
      TouchOrder(merchant, order, OD.Created, OD.Attempted);
      WriteTx(Event(PaymentFailed, order));
    }

    /** Five hundred of the due orders, or all of them. */
    method SelectDueOrders() returns (taken: set<string>)
      ensures |taken| <= 500 && forall o :: o in taken ==> OrderDue(State(), o)
      ensures |taken| < 500 ==> forall o :: OrderDue(State(), o) ==> o in taken
    {
      var rest := set o | o in orders && orders[o].status == OD.Created && orders[o].expiresAt <= now;
      taken := {};
      while rest != {} && |taken| < 500
        invariant |taken| <= 500 && taken !! rest
        invariant forall o :: o in taken + rest <==> OrderDue(State(), o)
        decreases rest
      {
        var o :| o in rest;
        taken, rest := taken + {o}, rest - {o};
      }
    }

    /** Expires at most five hundred due orders. */
    method ExpireDueOrders() returns (count: nat, ghost chosen: set<string>)
      modifies this`orders
      ensures forall o :: o in chosen ==> OrderDue(old(State()), o)
      ensures State() == ExpireOrders(old(State()), chosen)
      ensures count == |chosen| <= 500 && orders.Keys == old(orders).Keys
      ensures forall o :: o in orders ==>
                orders[o] == if o in chosen then old(orders)[o].(status := OD.Expired) else old(orders)[o]
      ensures forall o :: o in chosen ==> o in old(orders) && old(orders)[o].status == OD.Created && old(orders)[o].expiresAt <= now
      ensures count < 500 ==> forall o :: o in orders && orders[o].status == OD.Created ==> now < orders[o].expiresAt
    {
      var taken := SelectDueOrders();
      orders := map o | o in orders :: if o in taken then orders[o].(status := OD.Expired) else orders[o];
      count, chosen := |taken|, taken;
    }

    // Authorizations

    /** Adds up the order's payments that can still take money. */
    method CommittedAmount(merchant: string, order: string) returns (committed: int)
      ensures committed == Exposure(payments, merchant, order) == SumMap(payments, Claim(merchant, order))
    {
      committed := 0;
      var rest := payments;
      ghost var w := LiveOn(merchant, order);
      while rest != map[]
        invariant committed + SumMap(rest, w) == SumMap(payments, w)
        invariant rest.Keys <= payments.Keys && forall id :: id in rest ==> rest[id] == payments[id]
        decreases |rest|
      {
        var id :| id in rest;
        SumMapTake(rest, id, w);
        var p := rest[id];
        if p.order == order && p.merchant == merchant
           && p.status != PD.Failed && p.status != PD.AuthorizationReversed && p.status != PD.AutoRefunded {
          committed := committed + p.amount;
        }
        rest := rest - {id};
      }
      ClaimsAreExposure(payments, merchant, order);
    }

    /** Refuses a negative split before anything is committed. */
    method CheckSplits(splits: seq<int>) returns (ok: bool)
      ensures ok <==> SplitsAccepted(splits)
    {
      for i := 0 to |splits|
        invariant forall j :: 0 <= j < i ==> splits[j] >= 0
      {
        if splits[i] < 0 {
          return false;
        }
      }
      ok := true;
    }

    method StartAuthorizationTx(input: AuthInput) returns (r: Result)
      modifies this`orders, this`payments, this`events
      ensures Outcome(State(), r) == StartAuthorization(old(State()), input)
    {
      if input.amount <= 0 {
        return Rejected(AmountMismatch);
      }
      if input.payBy.Unsupported? {
        return Rejected(InvalidPaymentMethod);
      }
      if input.order !in orders || orders[input.order].merchant != input.merchant {
        return Rejected(OrderNotFound);
      }
      var o := orders[input.order];
      if o.status == OD.Expired || now > o.expiresAt {
        return Rejected(OrderExpired);
      }
      if o.status == OD.Paid {
        return Rejected(InvalidTransition);
      }
      if o.status == OD.Failed {
        return Rejected(InvalidTransition);
      }
      if input.currency != o.currency {
        return Rejected(CurrencyMismatch);
      }
      if o.partial {
        if input.amount <= 0 || input.amount > o.amountDue {
          return Rejected(AmountMismatch);
        }
      } else if input.amount != o.amount {
        return Rejected(AmountMismatch);
      }
      var committed := CommittedAmount(input.merchant, input.order);
      if committed + input.amount > o.amount {
        return Rejected(OrderAmountExceeded);
      }
      if input.id in payments {
        return Rejected(Violation);
      }
      var ok := CheckSplits(input.splits);
      if !ok {
        return Rejected(AmountMismatch);
      }
      payments := payments[input.id := NewPayment(input)];
      TouchOrder(input.merchant, input.order, OD.Created, OD.Attempted);
      WriteTx(Event(PaymentAuthorized, input.id));
      r := Written;
    }

    method MarkAuthorizationRequiresAction(merchant: string, id: string, token: string, autoCapture: bool, expiresAt: int)
      returns (r: Result)
      modifies this`payments, this`challenges, this`events
      ensures Outcome(State(), r) == RequireAction(old(State()), merchant, id, token, autoCapture, expiresAt)
    {
      if id !in payments || payments[id].merchant != merchant {
        return Rejected(PaymentNotFound);
      }
      match payments[id].status {
        case RequiresAction => return Replayed;
        case Created =>
        case _ => return Rejected(InvalidTransition);
      }
      payments := payments[id := payments[id].(status := PD.RequiresAction)];
      challenges := challenges[id := Challenge(Pending, token, autoCapture, expiresAt)];
      WriteTx(Event(PaymentPendingCustomerAction, id));
      r := Written;
    }

    method MarkAuthorizationAuthorized(merchant: string, id: string, autoCaptureAt: Option<int>) returns (r: Result)
      modifies this`payments, this`events
      ensures Outcome(State(), r) == Authorize(old(State()), merchant, id, autoCaptureAt)
    {
      if id !in payments || payments[id].merchant != merchant {
        return Rejected(PaymentNotFound);
      }
      match payments[id].status {
        case Authorized => return Replayed;
        case Created =>
        case _ => return Rejected(InvalidTransition);
      }
      payments := payments[id := payments[id].(
        status := PD.Authorized, authorizedAt := Some(now), autoCaptureAt := autoCaptureAt)];
      WriteTx(Event(PaymentAuthorized, id));
      r := Written;
    }

    method MarkAuthorizationFailed(merchant: string, id: string, description: string) returns (r: Result)
      modifies this`payments, this`events
      ensures Outcome(State(), r) == FailAuthorization(old(State()), merchant, id, description)
    {
      if id !in payments || payments[id].merchant != merchant {
        return Rejected(PaymentNotFound);
      }
      match payments[id].status {
        case Failed => return Replayed;
        case Created =>
        case RequiresAction =>
        case _ => return Rejected(InvalidTransition);
      }
      if description == "" {
        return Rejected(Violation);
      }
      payments := payments[id := payments[id].(status := PD.Failed)];
      WriteTx(Event(PaymentFailed, id));
      r := Written;
    }

    method CompleteCardChallenge(merchant: string, id: string, token: string, completedAt: int) returns (r: Result)
      modifies this`payments, this`challenges, this`events
      ensures Outcome(State(), r) == CompleteChallenge(old(State()), merchant, id, token, completedAt)
    {
      if id !in payments || payments[id].merchant != merchant {
        return Rejected(PaymentNotFound);
      }
      if id !in challenges || token == "" || challenges[id].token != token {
        return Rejected(ChallengeRejected);
      }
      var c := challenges[id];
      if c.status != Pending {
        return Replayed;
      }
      if payments[id].status != PD.RequiresAction {
        return Replayed;
      }
      if completedAt > c.expiresAt {
        challenges := challenges[id := c.(status := ChallengeExpired)];
        payments := payments[id := payments[id].(status := PD.Failed)];
        assert events == old(events) + [];
        return Written;
      }
      var autoCaptureAt := None;
      if c.autoCapture {
        autoCaptureAt := Some(completedAt + 30 * SECOND);
      }
      payments := payments[id := payments[id].(
        status := PD.Authorized, authorizedAt := Some(completedAt), autoCaptureAt := autoCaptureAt)];
      challenges := challenges[id := c.(status := Completed)];
      WriteTx(Event(PaymentAuthorized, id));
      r := Written;
    }

    method FailCardChallenge(merchant: string, id: string, token: string, description: string, status: ChallengeStatus)
      returns (r: Result)
      modifies this`payments, this`challenges, this`events
      ensures Outcome(State(), r) == FailChallenge(old(State()), merchant, id, token, description, status)
    {
      if id !in payments || payments[id].merchant != merchant {
        return Rejected(PaymentNotFound);
      }
      if id !in challenges || token == "" || challenges[id].token != token {
        return Rejected(ChallengeRejected);
      }
      if payments[id].status != PD.RequiresAction {
        return Replayed;
      }
      if description == "" {
        return Rejected(Violation);
      }
      challenges := challenges[id := challenges[id].(status := status)];
      payments := payments[id := payments[id].(status := PD.Failed)];
      WriteTx(Event(PaymentFailed, id));
      r := Written;
    }

    method ReverseAuthorization(merchant: string, id: string, reason: string) returns (r: Result)
      modifies this`payments, this`events
      ensures Outcome(State(), r) == Reverse(old(State()), merchant, id, reason)
    {
      if id !in payments || payments[id].merchant != merchant {
        return Rejected(PaymentNotFound);
      }
      match payments[id].status {
        case AuthorizationReversed => return Replayed;
        case Authorized =>
        case _ => return Rejected(InvalidTransition);
      }
      if reason == "" {
        return Rejected(Violation);
      }
      payments := payments[id := payments[id].(status := PD.AuthorizationReversed, autoCaptureAt := None)];
      WriteTx(Event(PaymentReversed, id));
      r := Written;
    }

    // Capture

    method PayOrder(merchant: string, order: string)
      modifies this`orders
      ensures orders == MarkPaid(old(State()), merchant, order)
    {
      if order in orders && orders[order].merchant == merchant {
        var o := orders[order];
        orders := orders[order := o.(status := OD.Paid, amountPaid := o.amount, amountDue := 0)];
      }
    }

    /** The writes of a capture once the ledger has taken its entries. */
    method WriteCapture(id: string, posted: seq<Txn>, fee: int)
      requires id in payments && fee == Fee(payments[id].amount)
      modifies this`orders, this`payments, this`txns, this`events
      ensures State() == CaptureRows(old(State()), id, posted)
    {
      var p := payments[id];
      txns := posted;
      payments := payments[id := p.(status := PD.Captured, captured := true, fee := fee)];
      PayOrder(p.merchant, p.order);
      WriteTx(Event(PaymentCaptured, id));
      WriteTx(Event(OrderPaid, p.order));
      assert events == old(events) + [Event(PaymentCaptured, id), Event(OrderPaid, p.order)];
    }

    method CaptureAuthorizedPayment(merchant: string, id: string, amount: int) returns (r: Result)
      modifies this`orders, this`payments, this`txns, this`events
      ensures Outcome(State(), r) == Capture(old(State()), merchant, id, amount)
    {
      if id !in payments || payments[id].merchant != merchant {
        return Rejected(PaymentNotFound);
      }
      var p := payments[id];
      if p.status != PD.Authorized {
        if p.status == PD.Captured {
          return Replayed;
        }
        return Rejected(InvalidTransition);
      }
      if amount != p.amount {
        return Rejected(AmountMismatch);
      }
      var fits, entries := BuildEntries(amount, p.splits);
      if !fits {
        return Rejected(AmountMismatch);
      }
      var posting := CreateEntriesTx(txns, p.merchant, PaymentCapture(id), entries);
      if !posting.Posted? {
        return Rejected(LedgerRefused(posting));
      }
      WriteCapture(id, posting.txns, entries[1].credit);
      r := Written;
    }

    // Sweeps

    /** The due authorized payment with the earliest auto_capture_at, if any. */
    method NextDue() returns (found: bool, id: string)
      ensures found ==> IsNextDue(State(), id)
      ensures !found ==> forall k :: !CaptureDue(State(), k)
    {
      found, id := false, "";
      var rest := payments.Keys;
      while rest != {}
        invariant rest <= payments.Keys
        invariant found ==> CaptureDue(State(), id)
        invariant forall k :: k in payments.Keys - rest && CaptureDue(State(), k) ==> found && !Earlier(State(), k, id)
        decreases rest
      {
        var k :| k in rest;
        rest := rest - {k};
        var p := payments[k];
        if p.status == PD.Authorized && p.autoCaptureAt.Some? && p.autoCaptureAt.value <= now
           && (!found || p.autoCaptureAt.value < payments[id].autoCaptureAt.value) {
          found, id := true, k;
        }
      }
    }

    /** One turn of the sweep: pick under a lock, drop it, then capture. */
    method CaptureNext(ghost start: Db, ghost due: seq<string>, ghost picked: seq<string>, ghost turn: int)
      returns (found: bool, written: bool, ghost picked': seq<string>)
      requires DbOk(State()) && SweepSoFar(start, State(), due, picked, turn)
      modifies this`orders, this`payments, this`txns, this`events
      ensures found ==> DbOk(State()) && SweepSoFar(start, State(), due, picked', turn + 1)
      ensures |picked'| == |picked| + if written then 1 else 0
      ensures !found ==> State() == old(State()) && picked' == picked && forall k :: !CaptureDue(State(), k)
    {
      var id;
      found, id := NextDue();
      if !found {
        return false, false, picked;
      }
      ghost var mid;
      picked', mid := SweepTurns(start, State(), due, picked, turn, id);
      var r := CaptureAuthorizedPayment(payments[id].merchant, id, payments[id].amount);
      written := r == Written;
    }

    /** The turns of the sweep, until fifty are taken or nothing is due. */
    method CaptureTurns(ghost due: seq<string>) returns (count: nat, ghost picked: seq<string>, ghost turn: int)
      requires DbOk(State())
      modifies this`orders, this`payments, this`txns, this`events
      ensures DbOk(State()) && SweepSoFar(old(State()), State(), due, picked, turn) && turn <= 50 && count == |picked|
      ensures turn == 50 || forall k :: !CaptureDue(State(), k)
    {
      count, picked, turn := 0, [], 0;
      for i := 0 to 50
        invariant turn == i && count == |picked|
        invariant DbOk(State()) && SweepSoFar(old(State()), State(), due, picked, i)
      {
        var found, written;
        found, written, picked := CaptureNext(old(State()), due, picked, i);
        if !found {
          return;
        }
        if written {
          count := count + 1;
        }
        turn := i + 1;
      }
    }

    /** Up to fifty times: pick the earliest due payment and capture it for its amount. A payment
        that cannot be captured stays the earliest, so nothing behind it is captured either. */
    method AutoCaptureDue(ghost due: seq<string>) returns (count: nat, ghost picked: seq<string>)
      requires DbOk(State())
      modifies this`orders, this`payments, this`txns, this`events
      ensures DbOk(State()) && State() == CaptureAll(old(State()), picked) && count == |picked| <= 50
      ensures RightlyPicked(old(State()), picked)
      ensures ListsDue(old(State()), due) ==> IsCapturablePrefix(old(State()), due, picked)
      ensures forall id :: id in picked ==>
                && id in old(payments) && old(payments)[id].status == PD.Authorized
                && old(payments)[id].autoCaptureAt.Some? && old(payments)[id].autoCaptureAt.value <= old(now)
      ensures payments.Keys == old(payments).Keys
      ensures forall id :: id in payments ==>
                if id in picked then payments[id].status == PD.Captured else payments[id] == old(payments)[id]
    {
      ghost var turn;
      count, picked, turn := CaptureTurns(due);
      SweepEnds(old(State()), State(), due, picked, turn);
    }

    /** The authorization with the earliest authorized_at among the given ones. */
    method EarliestAuthorized(window: int, rest: set<string>) returns (id: string)
      requires rest != {} && forall k :: k in rest ==> PastWindow(State(), window, k)
      ensures id in rest && forall k :: k in rest ==> AuthorizedBy(State(), id, k)
    {
      id :| id in rest;
      assert PastWindow(State(), window, id);
      var unseen := rest - {id};
      while unseen != {}
        invariant unseen <= rest && id in rest
        invariant forall k :: k in rest && k !in unseen ==> AuthorizedBy(State(), id, k)
        decreases unseen
      {
        var k :| k in unseen;
        assert PastWindow(State(), window, k) && PastWindow(State(), window, id);
        unseen := unseen - {k};
        if payments[k].authorizedAt.value < payments[id].authorizedAt.value {
          id := k;
        }
      }
    }

    /** The first fifty authorizations past the window, oldest first. */
    method SelectPastWindow(window: int) returns (rows: seq<string>)
      ensures IsOldestSelection(State(), window, rows)
    {
      var rest := set k | k in payments && payments[k].status == PD.Authorized
                          && payments[k].authorizedAt.Some? && payments[k].authorizedAt.value <= now - window;
      rows := [];
      while rest != {} && |rows| < 50
        invariant IsSelection(State(), window, rows)
        invariant forall k :: k in rest <==> PastWindow(State(), window, k) && k !in rows
        invariant forall i, k :: 0 <= i < |rows| && k in rest ==> AuthorizedBy(State(), rows[i], k)
        decreases rest
      {
        var id := EarliestAuthorized(window, rest);
        rest := rest - {id};
        assert forall k :: k in rows + [id] <==> k in rows || k == id;
        rows := rows + [id];
      }
    }

    /** One payment of the window sweep. */
    method RefundRow(id: string)
      requires id in payments
      modifies this`orders, this`payments, this`events
      ensures State() == RefundOne(old(State()), id)
    {
      var p := payments[id];
      payments := payments[id := p.(status := PD.AutoRefunded)];
      TouchOrder(p.merchant, p.order, OD.Attempted, OD.Failed);
      WriteTx(Event(PaymentAutoRefunded, id));
    }

    /** The loop over the selected authorizations, all in one transaction. */
    method RefundRows(selected: seq<string>)
      requires forall i :: 0 <= i < |selected| ==> selected[i] in payments
      modifies this`orders, this`payments, this`events
      ensures State() == RefundAll(old(State()), selected)
    {
      for i := 0 to |selected|
        invariant State() == RefundAll(old(State()), selected[..i])
      {
        assert selected[..i + 1][..i] == selected[..i];
        RefundRow(selected[i]);
      }
      assert selected[..|selected|] == selected;
    }

    /** Refunds the oldest authorizations past the window and fails their orders. */
    method ExpireAuthorizationWindow(window: int) returns (count: nat, ghost rows: seq<string>)
      modifies this`orders, this`payments, this`events
      ensures IsOldestSelection(old(State()), window, rows)
      ensures State() == RefundAll(old(State()), rows)
      ensures count == |rows| <= 50 && payments.Keys == old(payments).Keys
      ensures forall id :: id in payments ==>
                payments[id] == if id in rows then old(payments)[id].(status := PD.AutoRefunded) else old(payments)[id]
      ensures forall id :: id in rows ==> StillAuthorized(old(payments), id) && old(payments)[id].authorizedAt.value <= now - window
      ensures count < 50 ==> forall id :: StillAuthorized(payments, id) ==> now - window < payments[id].authorizedAt.value
    {
      var selected := SelectPastWindow(window);
      SweptClean(State(), window, selected);
      RefundRows(selected);
      count, rows := |selected|, selected;
    }
  }

  /** What the sweep leaves behind, from the rows it selected. */
  lemma SweptClean(db: Db, window: int, rows: seq<string>)
    requires IsOldestSelection(db, window, rows)
    ensures forall i :: 0 <= i < |rows| ==> rows[i] in db.payments
    ensures var payments := RefundAll(db, rows).payments;
            && (forall id :: id in payments ==>
                  payments[id] == if id in rows then db.payments[id].(status := PD.AutoRefunded) else db.payments[id])
            && (forall id :: id in rows ==>
                  StillAuthorized(db.payments, id) && db.payments[id].authorizedAt.value <= db.now - window)
            && (|rows| < 50 ==> forall id :: StillAuthorized(payments, id) ==> db.now - window < payments[id].authorizedAt.value)
    ensures RefundAll(db, rows).now == db.now
  {
    assert forall i :: 0 <= i < |rows| ==> PastWindow(db, window, rows[i]);
    RefundAllRows(db, rows);
    RefundAllTouches(db, rows);
  }

  predicate StillAuthorized(payments: Payments, id: string)
  {
    id in payments && payments[id].status == PD.Authorized && payments[id].authorizedAt.Some?
  }

  predicate AuthorizedBy(db: Db, i: string, k: string)
  {
    && i in db.payments && k in db.payments && db.payments[i].authorizedAt.Some? && db.payments[k].authorizedAt.Some?
    && db.payments[i].authorizedAt.value <= db.payments[k].authorizedAt.value
  }

  /** Fifty of the authorizations past the window, or all of them, and none older left out. */
  ghost predicate IsOldestSelection(db: Db, window: int, rows: seq<string>)
  {
    && IsSelection(db, window, rows)
    && (|rows| == 50 || forall k :: PastWindow(db, window, k) ==> k in rows)
    && forall i, k :: 0 <= i < |rows| && PastWindow(db, window, k) && k !in rows ==> AuthorizedBy(db, rows[i], k)
  }
}
