/** What each card-path transaction decides and writes, in terms of the rows, and what the
    rows of every run remember of it. */
module CardLaws {
  import opened Common
  import opened Ledger
  import opened CaptureJournal
  import opened CardPath
  import opened CardInvariants
  import opened CardRuns
  import PD = PaymentDomain
  import OD = OrderDomain

  // Orders

  /** An order is written exactly for a positive amount in a supported currency, a merchant that is
      not blank and a new id; it starts unpaid and lives thirty minutes. */
  lemma OrderCreatedIff(db: Db, id: string, merchant: string, amount: int, currency: string, partial: bool)
    ensures var out := CreateOrder(db, id, merchant, amount, currency, partial);
            var valid := amount > 0 && currency in {"INR", "USD"} && exists i :: 0 <= i < |merchant| && !IsSpace(merchant[i]);
            && (out.result == Written <==> valid && id !in db.orders)
            && (out.result == Rejected(InvalidOrder) <==> !valid)
            && (out.result == Rejected(Violation) <==> valid && id in db.orders)
            && (out.result != Written ==> out.db == db)
            && (out.result == Written ==>
                  && out.db.orders.Keys == db.orders.Keys + {id}
                  && (forall o :: o in db.orders ==> out.db.orders[o] == db.orders[o])
                  && out.db.orders[id]
                     == Order(merchant, amount, 0, amount, currency, OD.Created, partial, db.now + 30 * 60 * 1_000_000_000)
                  && out.db == db.(orders := out.db.orders, events := db.events + [Event(OrderCreated, id)]))
  {
    TrimmedIsEmptyIff(merchant);
  }

  /** A failed attempt moves a created order of the merchant to attempted and is announced. */
  lemma FailedAttemptWrites(db: Db, merchant: string, order: string)
    ensures var db' := FailedAttempt(db, merchant, order).db;
            && db'.orders.Keys == db.orders.Keys
            && (forall o :: o in db.orders ==>
                  db'.orders[o] == if o == order && db.orders[o].merchant == merchant && db.orders[o].status == OD.Created
                                   then db.orders[o].(status := OD.Attempted) else db.orders[o])
            && db' == db.(orders := db'.orders, events := db.events + [Event(PaymentFailed, order)])
  {
  }

  // Starting an authorization

  /** What a payment claims of an order: its amount in each status that can still take money. */
  function Claim(merchant: string, order: string): (string, Payment) -> int
  {
    (id: string, p: Payment) =>
      if p.merchant == merchant && p.order == order
         && p.status in {PD.Created, PD.RequiresAction, PD.PendingCustomerAction, PD.Processing, PD.Authorized, PD.Captured}
      then p.amount else 0
  }

  lemma ClaimsAreExposure(payments: Payments, merchant: string, order: string)
    ensures SumMap(payments, Claim(merchant, order)) == Exposure(payments, merchant, order)
  {
    SumMapMonotone(payments, Claim(merchant, order), LiveOn(merchant, order));
    SumMapMonotone(payments, LiveOn(merchant, order), Claim(merchant, order));
  }

  predicate Offered(input: AuthInput)
  {
    input.amount > 0 && input.payBy in {Card, Upi, Netbanking, Wallet}
  }

  predicate OrderOfMerchant(db: Db, input: AuthInput)
  {
    input.order in db.orders && db.orders[input.order].merchant == input.merchant
  }

  predicate InTime(db: Db, input: AuthInput)
    requires OrderOfMerchant(db, input)
  {
    db.orders[input.order].status != OD.Expired && db.now <= db.orders[input.order].expiresAt
  }

  predicate Unsettled(db: Db, input: AuthInput)
    requires OrderOfMerchant(db, input)
  {
    db.orders[input.order].status in {OD.Created, OD.Attempted, OD.Expired}
  }

  predicate SameCurrency(db: Db, input: AuthInput)
    requires OrderOfMerchant(db, input)
  {
    input.currency == db.orders[input.order].currency
  }

  /** A partial payment asks for at most what is due, any other for the whole order. */
  predicate RightAmount(db: Db, input: AuthInput)
    requires OrderOfMerchant(db, input)
  {
    var o := db.orders[input.order];
    if o.partial then input.amount <= o.amountDue else input.amount == o.amount
  }

  ghost predicate WithinCap(db: Db, input: AuthInput)
    requires OrderOfMerchant(db, input)
  {
    SumMap(db.payments, Claim(input.merchant, input.order)) + input.amount <= db.orders[input.order].amount
  }

  predicate NoNegativeSplit(input: AuthInput)
  {
    forall s :: s in input.splits ==> s >= 0
  }

  lemma SplitsAcceptedIff(input: AuthInput)
    ensures SplitsAccepted(input.splits) <==> NoNegativeSplit(input)
  {
    assert forall i :: 0 <= i < |input.splits| ==> input.splits[i] in input.splits;
  }

  /** The checks made on the order row. */
  predicate RowAccepts(db: Db, input: AuthInput)
  {
    && Offered(input) && OrderOfMerchant(db, input) && InTime(db, input) && Unsettled(db, input)
    && SameCurrency(db, input) && RightAmount(db, input)
  }

  /** An authorization starts exactly when every check passes. */
  lemma StartsIff(db: Db, input: AuthInput)
    ensures StartAuthorization(db, input).result == Written
            <==> RowAccepts(db, input) && WithinCap(db, input) && input.id !in db.payments && NoNegativeSplit(input)
  {
    ClaimsAreExposure(db.payments, input.merchant, input.order);
    SplitsAcceptedIff(input);
  }

  /** The error names the first check that fails. */
  lemma StartErrors(db: Db, input: AuthInput)
    ensures var r := StartAuthorization(db, input).result;
            var known := Offered(input) && OrderOfMerchant(db, input);
            && (r == Rejected(InvalidPaymentMethod) <==> input.amount > 0 && input.payBy.Unsupported?)
            && (r == Rejected(OrderNotFound) <==> Offered(input) && !OrderOfMerchant(db, input))
            && (r == Rejected(OrderExpired) <==> known && !InTime(db, input))
            && (r == Rejected(InvalidTransition) <==> known && InTime(db, input) && !Unsettled(db, input))
            && (r == Rejected(CurrencyMismatch)
                <==> known && InTime(db, input) && Unsettled(db, input) && !SameCurrency(db, input))
            && (r == Rejected(OrderAmountExceeded) <==> RowAccepts(db, input) && !WithinCap(db, input))
            && (r == Rejected(Violation) <==> RowAccepts(db, input) && WithinCap(db, input) && input.id in db.payments)
            && (r == Rejected(AmountMismatch)
                <==> || input.amount <= 0
                     || (known && InTime(db, input) && Unsettled(db, input) && SameCurrency(db, input) && !RightAmount(db, input))
                     || (RowAccepts(db, input) && WithinCap(db, input) && input.id !in db.payments && !NoNegativeSplit(input)))
  {
    ClaimsAreExposure(db.payments, input.merchant, input.order);
    SplitsAcceptedIff(input);
  }

  /** What it writes: one created payment on the given terms, the order attempted, one event;
      a refused one writes nothing. */
  lemma StartWrites(db: Db, input: AuthInput)
    ensures var out := StartAuthorization(db, input);
            if out.result != Written then out.db == db
            else
              && out.db.payments.Keys == db.payments.Keys + {input.id}
              && (forall k :: k in db.payments ==> out.db.payments[k] == db.payments[k])
              && out.db.payments[input.id]
                 == Payment(input.order, input.merchant, input.amount, input.currency, input.payBy, PD.Created, false, 0,
                            None, None, input.splits)
              && out.db.orders.Keys == db.orders.Keys
              && (forall o :: o in db.orders ==>
                    out.db.orders[o] == if o == input.order then db.orders[o].(status := OD.Attempted) else db.orders[o])
              && out.db == db.(payments := out.db.payments, orders := out.db.orders,
                               events := db.events + [Event(PaymentAuthorized, input.id)])
  {
  }

  // Moving a payment that has not been captured

  predicate PaymentOfMerchant(db: Db, merchant: string, id: string)
  {
    id in db.payments && db.payments[id].merchant == merchant
  }

  /** How a transition answers: it writes out of the statuses `from` when its arguments are
      complete, is a replay when already done, and refuses every other status. */
  predicate Answers(
    db: Db, merchant: string, id: string, out: Outcome, from: set<PD.State>, done: PD.State, complete: bool)
  {
    if !PaymentOfMerchant(db, merchant, id) then out == Outcome(db, Rejected(PaymentNotFound))
    else if db.payments[id].status == done then out == Outcome(db, Replayed)
    else if db.payments[id].status !in from then out == Outcome(db, Rejected(InvalidTransition))
    else if !complete then out == Outcome(db, Rejected(Violation))
    else out.result == Written
  }

  /** What a written transition changes: one payment row, perhaps its challenge, and the outbox. */
  predicate Moves(db: Db, out: Outcome, id: string, p: Payment, c: Option<Challenge>, events: seq<Event>)
  {
    && out.db.payments == db.payments[id := p]
    && out.db.challenges == (if c.Some? then db.challenges[id := c.value] else db.challenges)
    && out.db.events == db.events + events
    && out.db.orders == db.orders && out.db.txns == db.txns && out.db.now == db.now
  }

  lemma RequireActionLaw(db: Db, merchant: string, id: string, token: string, autoCapture: bool, expiresAt: int)
    ensures var out := RequireAction(db, merchant, id, token, autoCapture, expiresAt);
            && Answers(db, merchant, id, out, {PD.Created}, PD.RequiresAction, true)
            && (out.result == Written ==>
                  Moves(db, out, id, db.payments[id].(status := PD.RequiresAction),
                        Some(Challenge(Pending, token, autoCapture, expiresAt)), [Event(PaymentPendingCustomerAction, id)]))
  {
  }

  lemma AuthorizeLaw(db: Db, merchant: string, id: string, autoCaptureAt: Option<int>)
    ensures var out := Authorize(db, merchant, id, autoCaptureAt);
            && Answers(db, merchant, id, out, {PD.Created}, PD.Authorized, true)
            && (out.result == Written ==>
                  Moves(db, out, id,
                        db.payments[id].(status := PD.Authorized, authorizedAt := Some(db.now), autoCaptureAt := autoCaptureAt),
                        None, [Event(PaymentAuthorized, id)]))
  {
  }

  lemma FailAuthorizationLaw(db: Db, merchant: string, id: string, description: string)
    ensures var out := FailAuthorization(db, merchant, id, description);
            && Answers(db, merchant, id, out, {PD.Created, PD.RequiresAction}, PD.Failed, description != "")
            && (out.result == Written ==>
                  Moves(db, out, id, db.payments[id].(status := PD.Failed), None, [Event(PaymentFailed, id)]))
  {
  }

  lemma ReverseLaw(db: Db, merchant: string, id: string, reason: string)
    ensures var out := Reverse(db, merchant, id, reason);
            && Answers(db, merchant, id, out, {PD.Authorized}, PD.AuthorizationReversed, reason != "")
            && (out.result == Written ==>
                  Moves(db, out, id, db.payments[id].(status := PD.AuthorizationReversed, autoCaptureAt := None), None,
                        [Event(PaymentReversed, id)]))
  {
  }

  /** A callback is let in with the payment's own, non-empty token. */
  predicate RightToken(db: Db, id: string, token: string)
  {
    token != "" && id in db.challenges && db.challenges[id].token == token
  }

  predicate AwaitsCustomer(db: Db, id: string)
    requires id in db.payments && id in db.challenges
  {
    db.payments[id].status == PD.RequiresAction && db.challenges[id].status == Pending
  }

  /** Completed in time the payment is authorized at that instant and captured half a minute
      later if asked for; completed too late it fails, its challenge expires and nothing is
      announced; completed twice nothing changes. */
  lemma CompleteChallengeLaw(db: Db, merchant: string, id: string, token: string, completedAt: int)
    ensures var out := CompleteChallenge(db, merchant, id, token, completedAt);
            if !PaymentOfMerchant(db, merchant, id) then out == Outcome(db, Rejected(PaymentNotFound))
            else if !RightToken(db, id, token) then out == Outcome(db, Rejected(ChallengeRejected))
            else if !AwaitsCustomer(db, id) then out == Outcome(db, Replayed)
            else
              var p, c := db.payments[id], db.challenges[id];
              && out.result == Written
              && (out.db.payments[id].status == PD.Authorized <==> completedAt <= c.expiresAt)
              && (completedAt <= c.expiresAt ==>
                    Moves(db, out, id,
                          p.(status := PD.Authorized, authorizedAt := Some(completedAt),
                             autoCaptureAt := if c.autoCapture then Some(completedAt + 30_000_000_000) else None),
                          Some(c.(status := Completed)), [Event(PaymentAuthorized, id)]))
              && (completedAt > c.expiresAt ==>
                    Moves(db, out, id, p.(status := PD.Failed), Some(c.(status := ChallengeExpired)), []))
  {
  }

  lemma FailChallengeLaw(db: Db, merchant: string, id: string, token: string, description: string, status: ChallengeStatus)
    ensures var out := FailChallenge(db, merchant, id, token, description, status);
            if !PaymentOfMerchant(db, merchant, id) then out == Outcome(db, Rejected(PaymentNotFound))
            else if !RightToken(db, id, token) then out == Outcome(db, Rejected(ChallengeRejected))
            else if db.payments[id].status != PD.RequiresAction then out == Outcome(db, Replayed)
            else if description == "" then out == Outcome(db, Rejected(Violation))
            else
              && out.result == Written
              && Moves(db, out, id, db.payments[id].(status := PD.Failed), Some(db.challenges[id].(status := status)),
                       [Event(PaymentFailed, id)])
  {
  }

  // Capture and the window sweep

  /** Why a capture is refused; whether an authorized payment can be captured is CaptureSucceedsIff. */
  lemma CaptureAnswers(db: Db, merchant: string, id: string, amount: int)
    ensures var out := Capture(db, merchant, id, amount);
            if !PaymentOfMerchant(db, merchant, id) then out == Outcome(db, Rejected(PaymentNotFound))
            else if db.payments[id].status == PD.Captured then out == Outcome(db, Replayed)
            else if db.payments[id].status != PD.Authorized then out == Outcome(db, Rejected(InvalidTransition))
            else if amount != db.payments[id].amount then out == Outcome(db, Rejected(AmountMismatch))
            else if amount >= 0 && 100 * SplitTotal(db.payments[id].splits) >= 98 * amount + 100 then
              out == Outcome(db, Rejected(AmountMismatch))
            else amount >= 0 && out.result != Written ==> out.db == db && out.result.Rejected? && out.result.error.LedgerRefused?
  {
    if amount >= 0 && id in db.payments { SplitsFitIff(amount, db.payments[id].splits); }
  }

  /** What a capture writes: the row with its fee, the order paid in full, one posting under the
      payment's source and two events. */
  lemma CaptureWrites(db: Db, merchant: string, id: string, amount: int)
    requires LedgerOk(db.txns) && amount >= 0 && Capture(db, merchant, id, amount).result == Written
    ensures id in db.payments
    ensures var db', p := Capture(db, merchant, id, amount).db, db.payments[id];
            && id in db'.payments && db'.payments == db.payments[id := db'.payments[id]]
            && var p' := db'.payments[id];
            && p' == p.(status := PD.Captured, captured := true, fee := p'.fee)
            && 100 * p'.fee <= 2 * amount < 100 * p'.fee + 100
            && (forall o :: o in db.orders ==>
                  && o in db'.orders
                  && db'.orders[o] == if o == p.order && db.orders[o].merchant == p.merchant
                                      then db.orders[o].(status := OD.Paid, amountPaid := db.orders[o].amount, amountDue := 0)
                                      else db.orders[o])
            && db'.events == db.events + [Event(PaymentCaptured, id), Event(OrderPaid, p.order)]
            && |db'.txns| == |db.txns| + 1 && db'.txns[..|db.txns|] == db.txns
            && db'.txns[|db.txns|].merchant == merchant && db'.txns[|db.txns|].source == Source("payment", id)
            && db'.challenges == db.challenges && db'.now == db.now
  {
    var written, t := CaptureShape(db, merchant, id, amount);
    FeeIsTwoPercent(amount);
  }

  /** The order has a payment of its merchant among the rows. */
  predicate HasRow(db: Db, rows: seq<string>, o: string)
    requires o in db.orders
  {
    exists i :: 0 <= i < |rows| && rows[i] in db.payments && db.payments[rows[i]].order == o
                && db.payments[rows[i]].merchant == db.orders[o].merchant
  }

  /** The sweep fails the attempted orders of the payments it refunds and no others. */
  lemma {:induction false} RefundFailsOrder(db: Db, rows: seq<string>, o: string)
    requires o in db.orders && forall i :: 0 <= i < |rows| ==> rows[i] in db.payments
    ensures o in RefundAll(db, rows).orders
    ensures RefundAll(db, rows).orders[o]
            == if HasRow(db, rows, o) && db.orders[o].status == OD.Attempted then db.orders[o].(status := OD.Failed)
               else db.orders[o]
  {
    if |rows| > 0 {
      RefundFailsOrder(db, rows[..|rows| - 1], o);
      RefundAllRows(db, rows[..|rows| - 1]);
      HasOneMoreRow(db, rows, o);
    }
  }

  lemma HasOneMoreRow(db: Db, rows: seq<string>, o: string)
    requires |rows| > 0 && rows[|rows| - 1] in db.payments && o in db.orders
    ensures var p := db.payments[rows[|rows| - 1]];
            HasRow(db, rows, o) <==> HasRow(db, rows[..|rows| - 1], o) || (p.order == o && p.merchant == db.orders[o].merchant)
  {
    var init := rows[..|rows| - 1];
    if HasRow(db, init, o) {
      var i :| 0 <= i < |init| && init[i] in db.payments && db.payments[init[i]].order == o
               && db.payments[init[i]].merchant == db.orders[o].merchant;
      assert rows[i] == init[i];
    }
    if HasRow(db, rows, o) {
      var i :| 0 <= i < |rows| && rows[i] in db.payments && db.payments[rows[i]].order == o
               && db.payments[rows[i]].merchant == db.orders[o].merchant;
      assert i < |init| ==> init[i] == rows[i];
    }
  }

  // What the rows of a run remember

  predicate Decided(p: Payment)
  {
    p.status in {PD.Authorized, PD.AuthorizationReversed, PD.Captured, PD.AutoRefunded}
  }

  /** The instants on an authorized payment: a challenge was completed within its time and asks for
      capture half a minute later; without one the clock of the database was read. */
  predicate InstantsOk(db: Db, id: string)
    requires id in db.payments && db.payments[id].authorizedAt.Some?
  {
    var p := db.payments[id];
    if id !in db.challenges then p.authorizedAt.value <= db.now
    else
      var c := db.challenges[id];
      && c.status == Completed && p.authorizedAt.value <= c.expiresAt
      && (p.status != PD.AuthorizationReversed ==>
            p.autoCaptureAt == if c.autoCapture then Some(p.authorizedAt.value + 30 * SECOND) else None)
  }

  /** `honest`: no challenge was failed as completed. */
  predicate RowOk(db: Db, id: string, honest: bool)
    requires id in db.payments
  {
    var p := db.payments[id];
    && (Decided(p) || p.status in {PD.Created, PD.RequiresAction, PD.Failed})
    && (p.authorizedAt.Some? <==> Decided(p))
    && (p.authorizedAt.Some? ==> InstantsOk(db, id))
    && (p.autoCaptureAt.Some? ==> Decided(p) && p.status != PD.AuthorizationReversed)
    && (p.status == PD.Created ==> id !in db.challenges)
    && (p.status == PD.RequiresAction ==> id in db.challenges && db.challenges[id].status == Pending)
    && (honest && id in db.challenges && db.challenges[id].status == Completed ==> Decided(p))
  }

  predicate RowsOk(db: Db, honest: bool)
  {
    db.challenges.Keys <= db.payments.Keys && forall id :: id in db.payments ==> RowOk(db, id, honest)
  }

  /** The step fails a challenge and calls it completed, which the service never does. */
  predicate FailsAsCompleted(step: Step)
  {
    step.DoFailChallenge? && step.status == Completed
  }

  lemma OneRowChanges(db: Db, db': Db, id: string, honest: bool)
    requires RowsOk(db, honest) && id in db.payments && id in db'.payments && RowOk(db', id, honest)
    requires db'.payments == db.payments[id := db'.payments[id]] && db'.now == db.now
    requires db'.challenges == db.challenges || (id in db'.challenges && db'.challenges == db.challenges[id := db'.challenges[id]])
    ensures RowsOk(db', honest)
  {
    forall k | k in db'.payments ensures RowOk(db', k, honest) {
      assert RowOk(db, k, honest);
    }
  }

  lemma ChallengeKeepsItsRow(db: Db, step: Step, honest: bool)
    requires RowsOk(db, honest) && (step.DoCompleteChallenge? || step.DoFailChallenge?)
    requires (honest ==> !FailsAsCompleted(step)) && ApplyDb(db, step) != db
    ensures var db' := ApplyDb(db, step);
            && step.id in db.payments && step.id in db'.payments && RowOk(db', step.id, honest)
            && db'.payments == db.payments[step.id := db'.payments[step.id]] && db'.now == db.now
            && step.id in db'.challenges && db'.challenges == db.challenges[step.id := db'.challenges[step.id]]
  {
    if step.id in db.payments { assert RowOk(db, step.id, honest); }
  }

  lemma TransitionKeepsItsRow(db: Db, step: Step, honest: bool)
    requires RowsOk(db, honest) && IsQuietStep(step) && !step.DoCompleteChallenge? && !step.DoFailChallenge?
    requires ApplyDb(db, step) != db
    ensures var db' := ApplyDb(db, step);
            && step.id in db.payments && step.id in db'.payments && RowOk(db', step.id, honest)
            && db'.payments == db.payments[step.id := db'.payments[step.id]] && db'.now == db.now
            && (db'.challenges == db.challenges
                || (step.id in db'.challenges && db'.challenges == db.challenges[step.id := db'.challenges[step.id]]))
  {
    if step.id in db.payments { assert RowOk(db, step.id, honest); }
  }

  lemma QuietKeepsRows(db: Db, step: Step, honest: bool)
    requires RowsOk(db, honest) && IsQuietStep(step) && (honest ==> !FailsAsCompleted(step))
    ensures RowsOk(ApplyDb(db, step), honest)
  {
    var db' := ApplyDb(db, step);
    if db' != db {
      if step.DoCompleteChallenge? || step.DoFailChallenge? {
        ChallengeKeepsItsRow(db, step, honest);
      } else {
        TransitionKeepsItsRow(db, step, honest);
      }
      OneRowChanges(db, db', step.id, honest);
    }
  }

  /** A row that stays, or that leaves authorized for captured or auto-refunded. */
  lemma RowFollows(db: Db, db': Db, id: string, honest: bool)
    requires RowsOk(db, honest) && id in db.payments && id in db'.payments
    requires db'.challenges == db.challenges && db'.now >= db.now
    requires var p, p' := db.payments[id], db'.payments[id];
             || p' == p
             || (p.status == PD.Authorized && p' == p.(status := p'.status, captured := p'.captured, fee := p'.fee)
                 && p'.status in {PD.Captured, PD.AutoRefunded})
    ensures RowOk(db', id, honest)
  {
    assert RowOk(db, id, honest);
  }

  lemma CaptureKeepsRows(db: Db, merchant: string, id: string, amount: int, honest: bool)
    requires RowsOk(db, honest) && LedgerOk(db.txns)
    ensures RowsOk(Capture(db, merchant, id, amount).db, honest)
  {
    var written, t := CaptureShape(db, merchant, id, amount);
    if written {
      var db' := CaptureRows(db, id, db.txns + [t]);
      forall k | k in db'.payments ensures RowOk(db', k, honest) {
        RowFollows(db, db', k, honest);
      }
    }
  }

  lemma {:induction false} RefundAllTouches(db: Db, rows: seq<string>)
    requires forall i :: 0 <= i < |rows| ==> rows[i] in db.payments
    ensures RefundAll(db, rows).challenges == db.challenges && RefundAll(db, rows).now == db.now
    ensures RefundAll(db, rows).txns == db.txns
    ensures RefundAll(db, rows).events == db.events + seq(|rows|, i requires 0 <= i < |rows| => Event(PaymentAutoRefunded, rows[i]))
  {
    if |rows| > 0 {
      RefundAllTouches(db, rows[..|rows| - 1]);
    }
  }

  lemma RefundKeepsRows(db: Db, rows: seq<string>, honest: bool)
    requires RowsOk(db, honest) && AllAuthorized(db.payments, rows)
    ensures RowsOk(RefundAll(db, rows), honest)
  {
    var db' := RefundAll(db, rows);
    RefundAllRows(db, rows);
    RefundAllTouches(db, rows);
    forall k | k in db'.payments ensures RowOk(db', k, honest) {
      RowFollows(db, db', k, honest);
    }
  }

  lemma AuthStepKeepsRows(s: Sys, step: Step, honest: bool)
    requires RowsOk(s.db, honest) && TxsOk(s) && IsAuthStep(step)
    ensures RowsOk(ApplyAuth(s, step).db, honest)
  {
    if step.DoCommit? && step.tx in s.open && s.open[step.tx].phase == Inserted {
      assert TxOk(s.db, s.open[step.tx]);
      var db' := InsertPayment(s.db, s.open[step.tx].input);
      forall k | k in db'.payments ensures RowOk(db', k, honest) {
        if k in s.db.payments { assert RowOk(s.db, k, honest); }
      }
    }
  }

  lemma SameRows(db: Db, db': Db, honest: bool)
    requires RowsOk(db, honest) && db'.payments == db.payments && db'.challenges == db.challenges && db'.now >= db.now
    ensures RowsOk(db', honest)
  {
    forall k | k in db'.payments ensures RowOk(db', k, honest) {
      RowFollows(db, db', k, honest);
    }
  }

  lemma SweepKeepsRows(s: Sys, window: int, rows: seq<string>, honest: bool)
    requires RowsOk(s.db, honest) && !Waits(s, DoRefundWindow(window, rows))
    ensures RowsOk(ApplyDb(s.db, DoRefundWindow(window, rows)), honest)
  {
    if IsSelection(s.db, window, rows) {
      SelectedRowsAreFree(s, window, rows);
      RefundKeepsRows(s.db, rows, honest);
    }
  }

  lemma OtherStepKeepsRows(db: Db, step: Step, honest: bool)
    requires RowsOk(db, honest) && (IsOrderStep(step) || step.DoOtherPosting? || step.DoTick?)
    ensures RowsOk(ApplyDb(db, step), honest)
  {
    SameRows(db, ApplyDb(db, step), honest);
  }

  lemma StepKeepsRows(s: Sys, step: Step, honest: bool)
    requires Inv(s) && RowsOk(s.db, honest) && (honest ==> !FailsAsCompleted(step))
    ensures RowsOk(Apply(s, step).db, honest)
  {
    if Waits(s, step) {
    } else if IsAuthStep(step) {
      AuthStepKeepsRows(s, step, honest);
    } else if IsQuietStep(step) {
      QuietKeepsRows(s.db, step, honest);
    } else if step.DoCaptureStep? {
      CaptureKeepsRows(s.db, step.merchant, step.id, step.amount, honest);
    } else if step.DoRefundWindow? {
      SweepKeepsRows(s, step.window, step.rows, honest);
    } else {
      OtherStepKeepsRows(s.db, step, honest);
    }
  }

  lemma {:induction false} RunKeepsRows(steps: seq<Step>, honest: bool)
    requires honest ==> forall i :: 0 <= i < |steps| ==> !FailsAsCompleted(steps[i])
    ensures RowsOk(Exec(EMPTY, steps).db, honest)
  {
    if |steps| > 0 {
      RunKeepsRows(steps[..|steps| - 1], honest);
      RunKeepsInv(steps[..|steps| - 1]);
      StepKeepsRows(Exec(EMPTY, steps[..|steps| - 1]), steps[|steps| - 1], honest);
    }
  }

  /** In every run an authorized payment with a challenge was completed within the challenge's
      time, and a completed challenge belongs to such a payment unless it was failed as completed. */
  lemma CompletedInTime(steps: seq<Step>, id: string)
    requires id in Exec(EMPTY, steps).db.challenges
    ensures var db := Exec(EMPTY, steps).db;
            && id in db.payments
            && (db.payments[id].authorizedAt.Some? ==>
                  db.challenges[id].status == Completed && db.payments[id].authorizedAt.value <= db.challenges[id].expiresAt)
            && (db.challenges[id].status == Completed && (forall i :: 0 <= i < |steps| ==> !FailsAsCompleted(steps[i])) ==>
                  db.payments[id].authorizedAt.Some?)
  {
    var db := Exec(EMPTY, steps).db;
    var honest := forall i :: 0 <= i < |steps| ==> !FailsAsCompleted(steps[i]);
    RunKeepsRows(steps, honest);
    assert RowOk(db, id, honest);
  }

  /** In every run a payment is in its order's currency, and once captured its fee is two percent
      of its amount, rounded down. */
  lemma PaymentTerms(steps: seq<Step>, id: string)
    requires id in Exec(EMPTY, steps).db.payments
    ensures var db := Exec(EMPTY, steps).db;
            var p := db.payments[id];
            && p.order in db.orders && p.currency == db.orders[p.order].currency && p.merchant == db.orders[p.order].merchant
            && (p.status == PD.Captured ==> 100 * p.fee <= 2 * p.amount < 100 * p.fee + 100)
  {
    var db := Exec(EMPTY, steps).db;
    RunKeepsInv(steps);
    assert PaymentOk(db.orders, db.payments[id]);
    FeeIsTwoPercent(db.payments[id].amount);
  }

  // What was agreed stays

  predicate SameAgreement(p: Payment, q: Payment)
  {
    p.order == q.order && p.merchant == q.merchant && p.amount == q.amount && p.currency == q.currency
    && p.payBy == q.payBy && p.splits == q.splits
  }

  predicate AgreementsStay(payments: Payments, payments': Payments)
  {
    forall id :: id in payments ==> id in payments' && SameAgreement(payments[id], payments'[id])
  }

  lemma QuietKeepsAgreements(db: Db, step: Step)
    requires IsQuietStep(step)
    ensures AgreementsStay(db.payments, ApplyDb(db, step).payments)
  {
    if ApplyDb(db, step) != db {
      var id, p, challenges, events := QuietStep(db, step);
    }
  }

  lemma CaptureKeepsAgreements(db: Db, merchant: string, id: string, amount: int)
    requires LedgerOk(db.txns)
    ensures AgreementsStay(db.payments, Capture(db, merchant, id, amount).db.payments)
  {
    var written, t := CaptureShape(db, merchant, id, amount);
  }

  lemma SweepKeepsAgreements(s: Sys, window: int, rows: seq<string>)
    requires !Waits(s, DoRefundWindow(window, rows))
    ensures AgreementsStay(s.db.payments, ApplyDb(s.db, DoRefundWindow(window, rows)).payments)
  {
    if IsSelection(s.db, window, rows) {
      SelectedRowsAreFree(s, window, rows);
      RefundAllRows(s.db, rows);
    }
  }

  lemma AuthKeepsAgreements(s: Sys, step: Step)
    requires TxsOk(s) && IsAuthStep(step)
    ensures AgreementsStay(s.db.payments, ApplyAuth(s, step).db.payments)
  {
    if step.DoCommit? && step.tx in s.open && s.open[step.tx].phase == Inserted {
      assert TxOk(s.db, s.open[step.tx]);
    }
  }

  lemma OtherStepKeepsPayments(db: Db, step: Step)
    requires IsOrderStep(step) || step.DoOtherPosting? || step.DoTick?
    ensures ApplyDb(db, step).payments == db.payments
  {
  }

  lemma StepKeepsAgreements(s: Sys, step: Step)
    requires LedgerOk(s.db.txns) && TxsOk(s)
    ensures AgreementsStay(s.db.payments, Apply(s, step).db.payments)
  {
    if Waits(s, step) {
    } else if IsAuthStep(step) {
      AuthKeepsAgreements(s, step);
    } else if IsQuietStep(step) {
      QuietKeepsAgreements(s.db, step);
    } else if step.DoCaptureStep? {
      CaptureKeepsAgreements(s.db, step.merchant, step.id, step.amount);
    } else if step.DoRefundWindow? {
      SweepKeepsAgreements(s, step.window, step.rows);
    } else {
      OtherStepKeepsPayments(s.db, step);
    }
  }

  /** No payment disappears, and what it was made for never changes: order, merchant, amount,
      currency, method and splits. */
  lemma {:induction false} RunKeepsAgreements(s: Sys, steps: seq<Step>)
    requires Inv(s)
    ensures Inv(Exec(s, steps)) && AgreementsStay(s.db.payments, Exec(s, steps).db.payments)
  {
    if |steps| > 0 {
      RunKeepsAgreements(s, steps[..|steps| - 1]);
      StepKeepsInv(Exec(s, steps[..|steps| - 1]), steps[|steps| - 1]);
      StepKeepsAgreements(Exec(s, steps[..|steps| - 1]), steps[|steps| - 1]);
    }
  }

  // Lifetimes of orders

  /** An order lives at most thirty minutes from now, and an expired one has lived them. */
  predicate LifetimeOk(o: Order, now: int)
  {
    o.expiresAt <= now + 1800 * SECOND && (o.status == OD.Expired ==> o.expiresAt <= now)
  }

  predicate LifetimesOk(orders: Orders, now: int)
  {
    forall o :: o in orders ==> LifetimeOk(orders[o], now)
  }

  /** No order appears, changes its terms or expires. */
  predicate NoneExpires(orders: Orders, orders': Orders)
  {
    forall o :: o in orders' ==>
      o in orders && SameOrder(orders[o], orders'[o]) && (orders'[o].status == OD.Expired ==> orders[o].status == OD.Expired)
  }

  lemma {:induction false} RefundExpiresNone(db: Db, rows: seq<string>)
    requires forall i :: 0 <= i < |rows| ==> rows[i] in db.payments
    ensures NoneExpires(db.orders, RefundAll(db, rows).orders)
  {
    if |rows| > 0 {
      RefundExpiresNone(db, rows[..|rows| - 1]);
    }
  }

  lemma CaptureExpiresNone(db: Db, merchant: string, id: string, amount: int)
    requires LedgerOk(db.txns)
    ensures NoneExpires(db.orders, Capture(db, merchant, id, amount).db.orders)
    ensures Capture(db, merchant, id, amount).db.now == db.now
  {
    var written, t := CaptureShape(db, merchant, id, amount);
  }

  lemma QuietExpiresNone(db: Db, step: Step)
    requires IsQuietStep(step)
    ensures ApplyDb(db, step).orders == db.orders && ApplyDb(db, step).now == db.now
  {
    if ApplyDb(db, step) != db {
      var id, p, challenges, events := QuietStep(db, step);
    }
  }

  lemma SweepExpiresNone(s: Sys, window: int, rows: seq<string>)
    requires !Waits(s, DoRefundWindow(window, rows))
    ensures var db' := ApplyDb(s.db, DoRefundWindow(window, rows)); NoneExpires(s.db.orders, db'.orders) && db'.now == s.db.now
  {
    if IsSelection(s.db, window, rows) {
      SelectedRowsAreFree(s, window, rows);
      RefundAllTouches(s.db, rows);
      RefundExpiresNone(s.db, rows);
    }
  }

  lemma InsertExpiresNone(db: Db, input: AuthInput)
    ensures NoneExpires(db.orders, InsertPayment(db, input).orders) && InsertPayment(db, input).now == db.now
  {
  }

  lemma AuthExpiresNone(s: Sys, step: Step)
    requires IsAuthStep(step)
    ensures NoneExpires(s.db.orders, ApplyAuth(s, step).db.orders) && ApplyAuth(s, step).db.now == s.db.now
  {
    if step.DoCommit? && step.tx in s.open && s.open[step.tx].phase == Inserted {
      InsertExpiresNone(s.db, s.open[step.tx].input);
    } else {
      assert ApplyAuth(s, step).db == s.db;
    }
  }

  lemma OtherStepKeepsLifetimes(db: Db, step: Step)
    requires LifetimesOk(db.orders, db.now) && (IsOrderStep(step) || step.DoOtherPosting? || step.DoTick?)
    ensures LifetimesOk(ApplyDb(db, step).orders, ApplyDb(db, step).now)
  {
  }

  lemma StepKeepsLifetimes(s: Sys, step: Step)
    requires LedgerOk(s.db.txns) && LifetimesOk(s.db.orders, s.db.now)
    ensures LifetimesOk(Apply(s, step).db.orders, Apply(s, step).db.now)
  {
    if Waits(s, step) {
    } else if IsAuthStep(step) {
      AuthExpiresNone(s, step);
    } else if IsQuietStep(step) {
      QuietExpiresNone(s.db, step);
    } else if step.DoCaptureStep? {
      CaptureExpiresNone(s.db, step.merchant, step.id, step.amount);
    } else if step.DoRefundWindow? {
      SweepExpiresNone(s, step.window, step.rows);
    } else {
      OtherStepKeepsLifetimes(s.db, step);
    }
  }

  /** In every run an order lives at most thirty minutes and expires only at the end of them. */
  lemma {:induction false} OrderLifetimes(steps: seq<Step>)
    ensures LifetimesOk(Exec(EMPTY, steps).db.orders, Exec(EMPTY, steps).db.now)
  {
    if |steps| > 0 {
      OrderLifetimes(steps[..|steps| - 1]);
      RunKeepsInv(steps[..|steps| - 1]);
      StepKeepsLifetimes(Exec(EMPTY, steps[..|steps| - 1]), steps[|steps| - 1]);
    }
  }
}
