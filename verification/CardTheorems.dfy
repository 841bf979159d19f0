/** What holds of every run of the card path. */
module CardTheorems {
  import opened Common
  import opened Ledger
  import opened CaptureJournal
  import opened CardPath
  import opened CardInvariants
  import opened CardRuns
  import PD = PaymentDomain
  import OD = OrderDomain

  // The cap

  function CapturedOn(order: string): (string, Payment) -> int
  {
    (id: string, p: Payment) => if p.order == order && p.status == PD.Captured then p.amount else 0
  }

  /** In every interleaving live payments fit the order, and so does everything captured. */
  lemma OrderNeverOvercharged(steps: seq<Step>, order: string)
    requires order in Exec(EMPTY, steps).db.orders
    ensures var db := Exec(EMPTY, steps).db;
            var o := db.orders[order];
            0 <= SumMap(db.payments, CapturedOn(order)) <= Exposure(db.payments, o.merchant, order) <= o.amount
  {
    var db := Exec(EMPTY, steps).db;
    var o := db.orders[order];
    RunKeepsInv(steps);
    forall k | k in db.payments
      ensures 0 <= CapturedOn(order)(k, db.payments[k]) <= LiveOn(o.merchant, order)(k, db.payments[k])
    {
      assert PaymentOk(db.orders, db.payments[k]);
    }
    SumMapNonnegative(db.payments, CapturedOn(order));
    SumMapMonotone(db.payments, CapturedOn(order), LiveOn(o.merchant, order));
  }

  lemma {:induction false} ExecConcat(s: Sys, a: seq<Step>, b: seq<Step>)
    ensures Exec(s, a + b) == Exec(Exec(s, a), b)
  {
    if |b| == 0 {
      assert a + b == a;
    } else {
      assert (a + b)[..|a + b| - 1] == a + b[..|b| - 1];
      ExecConcat(s, a, b[..|b| - 1]);
    }
  }

  lemma ExecOne(s: Sys, step: Step)
    ensures Exec(s, [step]) == Apply(s, step)
  {
    assert [step][..0] == [];
  }

  lemma ExecFour(s: Sys, a: Step, b: Step, c: Step, d: Step)
    ensures Exec(s, [a, b, c, d]) == Apply(Apply(Apply(Apply(s, a), b), c), d)
  {
    ExecConcat(s, [a, b, c], [d]);
    ExecConcat(s, [a, b], [c]);
    ExecConcat(s, [a], [b]);
    assert [a, b, c, d] == [a, b, c] + [d] && [a, b, c] == [a, b] + [c] && [a, b] == [a] + [b];
    ExecOne(s, a);
    ExecOne(Apply(s, a), b);
    ExecOne(Apply(Apply(s, a), b), c);
    ExecOne(Apply(Apply(Apply(s, a), b), c), d);
  }

  /** The first two pieces: locked and summed, or out. */
  lemma LockAndSum(db: Db, input: AuthInput, tx: nat) returns (s: Sys)
    ensures s == Apply(Apply(Sys(db, map[]), DoLock(tx, input)), DoSum(tx))
    ensures var committed := Exposure(db.payments, input.merchant, input.order);
            if OrderCheck(db, input).Some? || committed + input.amount > db.orders[input.order].amount
            then s == Sys(db, map[])
            else s == Sys(db, map[tx := AuthTx(input, db.orders[input.order], Summed(committed))])
  {
    s := Apply(Apply(Sys(db, map[]), DoLock(tx, input)), DoSum(tx));
    if OrderCheck(db, input).None? {
      var a := AuthTx(input, db.orders[input.order], Locked);
      assert Apply(Sys(db, map[]), DoLock(tx, input)) == Sys(db, map[tx := a]);
      assert map[tx := a] - {tx} == map[];
    }
  }

  /** The last two pieces: inserted and committed, or out. */
  lemma InsertAndCommit(db: Db, a: AuthTx, tx: nat) returns (s: Sys)
    requires a.phase.Summed?
    ensures s == Apply(Apply(Sys(db, map[tx := a]), DoInsert(tx)), DoCommit(tx))
    ensures if a.input.id in db.payments || !SplitsAccepted(a.input.splits) then s == Sys(db, map[])
            else s == Sys(InsertPayment(db, a.input), map[])
  {
    s := Apply(Apply(Sys(db, map[tx := a]), DoInsert(tx)), DoCommit(tx));
    assert map[tx := a] - {tx} == map[];
    assert map[tx := a.(phase := Inserted)] - {tx} == map[];
  }

  /** Alone, the four pieces are the transaction itself. */
  lemma PiecesMakeTheTransaction(db: Db, input: AuthInput, tx: nat)
    ensures var s := Sys(db, map[]);
            Exec(s, [DoLock(tx, input), DoSum(tx), DoInsert(tx), DoCommit(tx)]) == Sys(StartAuthorization(db, input).db, map[])
  {
    ExecFour(Sys(db, map[]), DoLock(tx, input), DoSum(tx), DoInsert(tx), DoCommit(tx));
    var s := LockAndSum(db, input, tx);
    if s.open != map[] {
      var s' := InsertAndCommit(db, s.open[tx], tx);
    }
  }

  // Capture

  /** An authorized payment is captured for its amount exactly from 50 minor units up, when
      its positive splits stay within 98 percent of it, rounded up, and while nobody else has
      posted under its source. */
  lemma CaptureSucceedsIff(db: Db, merchant: string, id: string)
    requires DbOk(db) && Known(db, merchant, id) && db.payments[id].status == PD.Authorized
    ensures var p := db.payments[id];
            Capture(db, merchant, id, p.amount).result == Written
            <==> p.amount >= 50 && 100 * SplitTotal(p.splits) < 98 * p.amount + 100 && !SourceUsed(db.txns, PaymentCapture(id))
  {
    var p := db.payments[id];
    assert PaymentOk(db.orders, p);
    SplitsFitIff(p.amount, p.splits);
    if Residual(p.amount, p.splits) >= 0 {
      PostableIff(db.txns, p.merchant, PaymentCapture(id), p.amount, p.splits);
    }
  }

  /** The posting of a capture is in the payment's currency exactly when that currency is INR. */
  lemma CapturePostsInINR(db: Db, merchant: string, id: string)
    requires DbOk(db) && Known(db, merchant, id) && db.payments[id].status == PD.Authorized
    requires Capture(db, merchant, id, db.payments[id].amount).result == Written
    ensures var p := db.payments[id];
            var txns := Capture(db, merchant, id, p.amount).db.txns;
            && |txns| == |db.txns| + 1
            && (txns[|db.txns|].currency == p.currency <==> p.currency == "INR")
            && (forall i :: 0 <= i < |txns[|db.txns|].lines| ==> txns[|db.txns|].lines[i].currency == "INR")
  {
    var p := db.payments[id];
    assert PaymentOk(db.orders, p);
    var written, t := CaptureShape(db, merchant, id, p.amount);
    StoredInINR(p.merchant, PaymentCapture(id), p.amount, p.splits);
  }

  predicate IsCaptured(db: Db, id: string)
  {
    id in db.payments && db.payments[id].status == PD.Captured
  }

  /** The step posts under the payment's source from outside the card path. */
  predicate Takes(s: Sys, step: Step, id: string)
  {
    && step.DoOtherPosting? && step.source == PaymentCapture(id)
    && Post(s.db.txns, step.merchant, step.source, step.entries).Posted?
  }

  ghost predicate Taken(steps: seq<Step>, id: string)
  {
    |steps| > 0 && (Taken(steps[..|steps| - 1], id) || Takes(Exec(EMPTY, steps[..|steps| - 1]), steps[|steps| - 1], id))
  }

  lemma CaptureRowsUseSource(db: Db, id: string, t: Txn, k: string)
    requires id in db.payments && t.source == PaymentCapture(id)
    ensures var db' := CaptureRows(db, id, db.txns + [t]);
            && (IsCaptured(db', k) <==> IsCaptured(db, k) || k == id)
            && (SourceUsed(db'.txns, PaymentCapture(k)) <==> SourceUsed(db.txns, PaymentCapture(k)) || k == id)
  {
    UsedAfterAppend(db.txns, t, PaymentCapture(k));
  }

  lemma WrittenFindsSourceFree(db: Db, merchant: string, id: string, amount: int)
    ensures Capture(db, merchant, id, amount).result == Written ==> !SourceUsed(db.txns, PaymentCapture(id))
  {
  }

  lemma CaptureUsesSource(db: Db, merchant: string, id: string, amount: int, k: string)
    requires LedgerOk(db.txns)
    ensures var db' := Capture(db, merchant, id, amount).db;
            var written := Capture(db, merchant, id, amount).result == Written;
            && (IsCaptured(db', k) <==> IsCaptured(db, k) || (written && k == id))
            && (SourceUsed(db'.txns, PaymentCapture(k)) <==> SourceUsed(db.txns, PaymentCapture(k)) || (written && k == id))
  {
    var written, t := CaptureShape(db, merchant, id, amount);
    if written { CaptureRowsUseSource(db, id, t, k); }
  }

  lemma QuietStepUsesNoSource(db: Db, step: Step, k: string)
    requires IsQuietStep(step)
    ensures IsCaptured(ApplyDb(db, step), k) <==> IsCaptured(db, k)
    ensures ApplyDb(db, step).txns == db.txns
  {
    if ApplyDb(db, step) != db {
      var id, p, challenges, events := QuietStep(db, step);
    }
  }

  lemma {:induction false} RefundUsesNoSource(db: Db, rows: seq<string>, k: string)
    requires AllAuthorized(db.payments, rows)
    ensures IsCaptured(RefundAll(db, rows), k) <==> IsCaptured(db, k)
    ensures RefundAll(db, rows).txns == db.txns
  {
    if |rows| > 0 {
      RefundUsesNoSource(db, rows[..|rows| - 1], k);
      var mid, id := LastTurn(db, rows);
    }
  }

  lemma AuthStepUsesNoSource(s: Sys, step: Step, k: string)
    requires TxsOk(s) && IsAuthStep(step)
    ensures IsCaptured(ApplyAuth(s, step).db, k) <==> IsCaptured(s.db, k)
    ensures ApplyAuth(s, step).db.txns == s.db.txns
  {
    if step.DoCommit? && step.tx in s.open && s.open[step.tx].phase == Inserted {
      assert TxOk(s.db, s.open[step.tx]);
    }
  }

  lemma DbStepUsesNoSource(s: Sys, step: Step, k: string)
    requires !Waits(s, step) && !IsAuthStep(step) && !step.DoCaptureStep? && !step.DoOtherPosting?
    ensures IsCaptured(ApplyDb(s.db, step), k) <==> IsCaptured(s.db, k)
    ensures ApplyDb(s.db, step).txns == s.db.txns
  {
    if IsOrderStep(step) {
      var orders, events := OrderStep(s, step);
    } else if IsQuietStep(step) {
      QuietStepUsesNoSource(s.db, step, k);
    } else {
      match step
      case DoRefundWindow(window, rows) =>
        if IsSelection(s.db, window, rows) {
          SelectedRowsAreFree(s, window, rows);
          RefundUsesNoSource(s.db, rows, k);
        }
      case DoTick(_) =>
    }
  }

  /** A step that captures the payment or takes its source finds the source free. */
  lemma StepUsesSource(s: Sys, step: Step, id: string) returns (captures: bool)
    requires Inv(s)
    ensures IsCaptured(Apply(s, step).db, id) <==> IsCaptured(s.db, id) || captures
    ensures SourceUsed(Apply(s, step).db.txns, PaymentCapture(id))
            <==> SourceUsed(s.db.txns, PaymentCapture(id)) || captures || Takes(s, step, id)
    ensures captures || Takes(s, step, id) ==> !SourceUsed(s.db.txns, PaymentCapture(id))
    ensures !(captures && Takes(s, step, id))
  {
    captures := false;
    if Waits(s, step) {
    } else if IsAuthStep(step) {
      AuthStepUsesNoSource(s, step, id);
    } else if step.DoCaptureStep? {
      captures := id == step.id && Capture(s.db, step.merchant, step.id, step.amount).result == Written;
      CaptureUsesSource(s.db, step.merchant, step.id, step.amount, id);
      WrittenFindsSourceFree(s.db, step.merchant, step.id, step.amount);
    } else if step.DoOtherPosting? {
      UsedAfterAppend(s.db.txns, MakeTxn(step.merchant, step.source, step.entries), PaymentCapture(id));
    } else {
      DbStepUsesNoSource(s, step, id);
    }
  }

  /** In every run a payment's source is used by its capture or by somebody else, never both. */
  lemma {:induction false} SourceUsedIff(steps: seq<Step>, id: string)
    ensures var db := Exec(EMPTY, steps).db;
            && (SourceUsed(db.txns, PaymentCapture(id)) <==> IsCaptured(db, id) || Taken(steps, id))
            && !(IsCaptured(db, id) && Taken(steps, id))
  {
    if |steps| > 0 {
      SourceUsedIff(steps[..|steps| - 1], id);
      RunKeepsInv(steps[..|steps| - 1]);
      var captures := StepUsesSource(Exec(EMPTY, steps[..|steps| - 1]), steps[|steps| - 1], id);
    }
  }

  /** In every run a payment is captured exactly when one payment.captured event exists for it,
      an order is paid exactly when it has a captured payment, and a payment is captured exactly
      when one posting exists under its source if and only if nobody outside the card path has
      posted under that source. */
  lemma CapturedPostedAnnounced(steps: seq<Step>, id: string, order: string)
    ensures var db := Exec(EMPTY, steps).db;
            && ((IsCaptured(db, id) <==> CountSource(db.txns, PaymentCapture(id)) == 1) <==> !Taken(steps, id))
            && CountSource(db.txns, PaymentCapture(id)) == (if IsCaptured(db, id) || Taken(steps, id) then 1 else 0)
            && multiset(db.events)[CapturedEvent(id)] == (if IsCaptured(db, id) then 1 else 0)
            && (order in db.orders ==> (db.orders[order].status == OD.Paid <==> HasCaptured(db.payments, order)))
  {
    var db := Exec(EMPTY, steps).db;
    RunKeepsInv(steps);
    SourceUsedIff(steps, id);
    CountIsOneIffUsed(db.txns, PaymentCapture(id));
    assert id in CapturedIds(db.payments) <==> IsCaptured(db, id);
    if order in db.orders {
      PaidIffCaptured(db, order);
    }
  }

  lemma PaidIffCaptured(db: Db, order: string)
    requires DbOk(db) && order in db.orders
    ensures db.orders[order].status == OD.Paid <==> HasCaptured(db.payments, order)
  {
    assert OrderOk(order, db.orders[order], db.payments);
    if HasCaptured(db.payments, order) {
      var k :| k in db.payments && db.payments[k].order == order && db.payments[k].status == PD.Captured;
      assert PaymentOk(db.orders, db.payments[k]);
    }
  }

  // Agreement with the published state machines

  ghost predicate PaymentsFollow(db: Db, db': Db)
  {
    && (forall id :: id in db.payments ==>
          id in db'.payments && PD.EdgeOrStutter(db.payments[id].status, db'.payments[id].status))
    && (forall id :: id in db'.payments && id !in db.payments ==> db'.payments[id].status == PD.Created)
  }

  ghost predicate FullOrdersFollow(db: Db, db': Db)
  {
    && (forall o :: o in db.orders && !db.orders[o].partial ==>
          o in db'.orders && OD.EdgeOrStutter(db.orders[o].status, db'.orders[o].status))
    && (forall o :: o in db'.orders && o !in db.orders ==> db'.orders[o].status == OD.Created)
  }

  /** The same for every order, partial or not. */
  ghost predicate OrdersFollow(db: Db, db': Db)
  {
    && (forall o :: o in db.orders ==> o in db'.orders && OD.EdgeOrStutter(db.orders[o].status, db'.orders[o].status))
    && (forall o :: o in db'.orders && o !in db.orders ==> db'.orders[o].status == OD.Created)
  }

  lemma TableEdges()
    ensures PD.EdgeOrStutter(PD.Authorized, PD.Captured) && PD.EdgeOrStutter(PD.Authorized, PD.AutoRefunded)
    ensures OD.EdgeOrStutter(OD.Created, OD.Attempted) && OD.EdgeOrStutter(OD.Created, OD.Expired)
    ensures OD.EdgeOrStutter(OD.Attempted, OD.Paid) && OD.EdgeOrStutter(OD.Attempted, OD.Failed)
    ensures OD.EdgeOrStutter(OD.Paid, OD.Paid) && !OD.EdgeOrStutter(OD.Failed, OD.Paid)
  {
    PD.EdgesAre(PD.Authorized, PD.Captured);
    PD.EdgesAre(PD.Authorized, PD.AutoRefunded);
    OD.EdgesAre(OD.Created, OD.Attempted);
    OD.EdgesAre(OD.Created, OD.Expired);
    OD.EdgesAre(OD.Attempted, OD.Paid);
    OD.EdgesAre(OD.Attempted, OD.Failed);
  }

  /** A live payment's order is never failed when the order takes one full payment. */
  lemma FullOrderNotFailed(db: Db, id: string)
    requires DbOk(db) && id in db.payments && Live(db.payments[id]) && !db.orders[db.payments[id].order].partial
    ensures db.orders[db.payments[id].order].status != OD.Failed
  {
    var order := db.payments[id].order;
    assert PaymentOk(db.orders, db.payments[id]);
    assert OrderOk(order, db.orders[order], db.payments);
    assert HasLive(db.payments, order);
  }

  lemma CaptureRowsFollow(db: Db, id: string, txns: seq<Txn>)
    requires id in db.payments && db.payments[id].status == PD.Authorized && PaymentOk(db.orders, db.payments[id])
    requires !db.orders[db.payments[id].order].partial ==> db.orders[db.payments[id].order].status != OD.Failed
    ensures PaymentsFollow(db, CaptureRows(db, id, txns)) && FullOrdersFollow(db, CaptureRows(db, id, txns))
  {
    TableEdges();
  }

  lemma CaptureFollows(db: Db, merchant: string, id: string, amount: int)
    requires DbOk(db)
    ensures PaymentsFollow(db, Capture(db, merchant, id, amount).db)
    ensures FullOrdersFollow(db, Capture(db, merchant, id, amount).db)
  {
    var written, t := CaptureShape(db, merchant, id, amount);
    if written {
      assert PaymentOk(db.orders, db.payments[id]);
      assert !db.orders[db.payments[id].order].partial ==> db.orders[db.payments[id].order].status != OD.Failed by {
        if !db.orders[db.payments[id].order].partial { FullOrderNotFailed(db, id); }
      }
      CaptureRowsFollow(db, id, db.txns + [t]);
    }
  }

  /** Whatever the order, the write is an edge or a stutter exactly when the order is not failed. */
  lemma CaptureOrderEdgeIff(db: Db, merchant: string, id: string, amount: int)
    requires DbOk(db) && Capture(db, merchant, id, amount).result == Written
    ensures var order := db.payments[id].order;
            OD.EdgeOrStutter(db.orders[order].status, Capture(db, merchant, id, amount).db.orders[order].status)
            <==> db.orders[order].status != OD.Failed
  {
    var written, t := CaptureShape(db, merchant, id, amount);
    assert PaymentOk(db.orders, db.payments[id]);
    PaidEdgeIff(db, id, db.txns + [t]);
  }

  lemma PaidEdgeIff(db: Db, id: string, txns: seq<Txn>)
    requires id in db.payments && PaymentOk(db.orders, db.payments[id]) && Live(db.payments[id])
    ensures var order := db.payments[id].order;
            OD.EdgeOrStutter(db.orders[order].status, CaptureRows(db, id, txns).orders[order].status)
            <==> db.orders[order].status != OD.Failed
  {
    TableEdges();
  }

  lemma {:induction false} RefundAllMovesOrders(db: Db, rows: seq<string>)
    requires AllAuthorized(db.payments, rows)
    ensures var orders := RefundAll(db, rows).orders;
            && orders.Keys == db.orders.Keys
            && forall o :: o in orders ==>
                 || orders[o] == db.orders[o]
                 || (db.orders[o].status == OD.Attempted && orders[o] == db.orders[o].(status := OD.Failed))
  {
    if |rows| > 0 {
      RefundAllMovesOrders(db, rows[..|rows| - 1]);
      var mid, id := LastTurn(db, rows);
    }
  }

  lemma RefundFollows(db: Db, rows: seq<string>)
    requires AllAuthorized(db.payments, rows)
    ensures PaymentsFollow(db, RefundAll(db, rows)) && OrdersFollow(db, RefundAll(db, rows))
  {
    TableEdges();
    RefundAllRows(db, rows);
    RefundAllMovesOrders(db, rows);
  }

  lemma OrderStepFollows(s: Sys, step: Step)
    requires IsOrderStep(step) && !Waits(s, step)
    ensures PaymentsFollow(s.db, ApplyDb(s.db, step)) && OrdersFollow(s.db, ApplyDb(s.db, step))
  {
    var orders, events := OrderStep(s, step);
    MovedOrdersFollow(s.db, s.db.(orders := orders, events := s.db.events + events));
  }

  lemma MovedOrdersFollow(db: Db, db': Db)
    requires db'.payments == db.payments && db.orders.Keys <= db'.orders.Keys
    requires forall o :: o in db.orders ==> OrderMayMove(db.orders[o], db'.orders[o])
    requires forall o :: o in db'.orders && o !in db.orders ==> IsNewOrder(db'.orders[o])
    ensures PaymentsFollow(db, db') && OrdersFollow(db, db')
  {
    TableEdges();
    forall o | o in db.orders ensures OD.EdgeOrStutter(db.orders[o].status, db'.orders[o].status) {
      assert OrderMayMove(db.orders[o], db'.orders[o]);
    }
  }

  lemma QuietStepFollows(db: Db, step: Step)
    requires IsQuietStep(step)
    ensures PaymentsFollow(db, ApplyDb(db, step)) && OrdersFollow(db, ApplyDb(db, step))
  {
    if ApplyDb(db, step) != db {
      var id, p, challenges, events := QuietStep(db, step);
    }
  }

  lemma DbStepFollows(s: Sys, step: Step)
    requires DbOk(s.db) && !Waits(s, step) && !IsAuthStep(step) && !step.DoCaptureStep?
    ensures PaymentsFollow(s.db, ApplyDb(s.db, step)) && OrdersFollow(s.db, ApplyDb(s.db, step))
  {
    match step
    case DoCreateOrder(_, _, _, _, _) => OrderStepFollows(s, step);
    case DoFailedAttempt(_, _) => OrderStepFollows(s, step);
    case DoExpireOrders(_) => OrderStepFollows(s, step);
    case DoRefundWindow(window, rows) =>
      if IsSelection(s.db, window, rows) {
        SelectedRowsAreFree(s, window, rows);
        RefundFollows(s.db, rows);
      }
    case DoOtherPosting(_, _, _) =>
    case DoTick(_) =>
    case _ => QuietStepFollows(s.db, step);
  }

  lemma CommitFollows(db: Db, input: AuthInput)
    requires MayInsert(db, input)
    ensures PaymentsFollow(db, InsertPayment(db, input)) && OrdersFollow(db, InsertPayment(db, input))
  {
    TableEdges();
  }

  lemma AuthStepFollows(s: Sys, step: Step)
    requires TxsOk(s) && IsAuthStep(step)
    ensures PaymentsFollow(s.db, ApplyAuth(s, step).db) && OrdersFollow(s.db, ApplyAuth(s, step).db)
  {
    if step.DoCommit? && step.tx in s.open && s.open[step.tx].phase == Inserted {
      assert TxOk(s.db, s.open[step.tx]);
      CommitFollows(s.db, s.open[step.tx].input);
    }
  }

  /** Every step but a capture follows both tables, for every order. */
  lemma OtherStepsFollow(s: Sys, step: Step)
    requires Inv(s) && !step.DoCaptureStep?
    ensures PaymentsFollow(s.db, Apply(s, step).db) && OrdersFollow(s.db, Apply(s, step).db)
  {
    if Waits(s, step) {
    } else if IsAuthStep(step) {
      AuthStepFollows(s, step);
    } else {
      DbStepFollows(s, step);
    }
  }

  lemma StepFollows(s: Sys, step: Step)
    requires Inv(s)
    ensures PaymentsFollow(s.db, Apply(s, step).db) && FullOrdersFollow(s.db, Apply(s, step).db)
  {
    if !step.DoCaptureStep? {
      OtherStepsFollow(s, step);
    } else if !Waits(s, step) {
      CaptureFollows(s.db, step.merchant, step.id, step.amount);
    }
  }

  /** Every committed status write of every run is an edge of the published tables or a
      stutter: payments always, orders whenever they take one full payment. */
  lemma RunFollowsTables(steps: seq<Step>, step: Step)
    ensures var s := Exec(EMPTY, steps);
            PaymentsFollow(s.db, Apply(s, step).db) && FullOrdersFollow(s.db, Apply(s, step).db)
  {
    RunKeepsInv(steps);
    StepFollows(Exec(EMPTY, steps), step);
  }

  /** The one move that leaves the order table: a capture that goes through on a failed order. */
  predicate RevivesFailedOrder(s: Sys, step: Step, order: string)
  {
    && step.DoCaptureStep? && !Waits(s, step) && order in s.db.orders && s.db.orders[order].status == OD.Failed
    && Capture(s.db, step.merchant, step.id, step.amount).result == Written
    && s.db.payments[step.id].order == order
  }

  lemma CaptureStepEdgeIff(s: Sys, step: Step, order: string)
    requires Inv(s) && step.DoCaptureStep? && !Waits(s, step) && order in s.db.orders
    ensures var db' := Capture(s.db, step.merchant, step.id, step.amount).db;
            && order in db'.orders
            && (OD.EdgeOrStutter(s.db.orders[order].status, db'.orders[order].status) <==> !RevivesFailedOrder(s, step, order))
  {
    var written, t := CaptureShape(s.db, step.merchant, step.id, step.amount);
    if written {
      assert PaymentOk(s.db.orders, s.db.payments[step.id]);
      CaptureRowsEdgeIff(s.db, step.id, s.db.txns + [t], order);
    }
  }

  lemma CaptureRowsEdgeIff(db: Db, id: string, txns: seq<Txn>, order: string)
    requires id in db.payments && PaymentOk(db.orders, db.payments[id]) && Live(db.payments[id]) && order in db.orders
    ensures var db' := CaptureRows(db, id, txns);
            && order in db'.orders
            && (OD.EdgeOrStutter(db.orders[order].status, db'.orders[order].status)
                <==> !(db.payments[id].order == order && db.orders[order].status == OD.Failed))
  {
    if db.payments[id].order == order { PaidEdgeIff(db, id, txns); }
  }

  lemma StepEdgeIff(s: Sys, step: Step, order: string) returns (s': Sys)
    requires Inv(s) && order in s.db.orders
    ensures s' == Apply(s, step) && order in s'.db.orders
    ensures OD.EdgeOrStutter(s.db.orders[order].status, s'.db.orders[order].status) <==> !RevivesFailedOrder(s, step, order)
  {
    s' := Apply(s, step);
    if !step.DoCaptureStep? {
      OtherStepsFollow(s, step);
    } else if !Waits(s, step) {
      CaptureStepEdgeIff(s, step, order);
    }
  }

  /** For every order, partial ones included, every step of every run follows the order table
      exactly unless it is a capture that goes through on that order while it is failed. */
  lemma RunFollowsOrderTableIff(steps: seq<Step>, step: Step, order: string)
    requires order in Exec(EMPTY, steps).db.orders
    ensures var s := Exec(EMPTY, steps);
            && order in Apply(s, step).db.orders
            && (OD.EdgeOrStutter(s.db.orders[order].status, Apply(s, step).db.orders[order].status)
                <==> !RevivesFailedOrder(s, step, order))
  {
    RunKeepsInv(steps);
    var s' := StepEdgeIff(Exec(EMPTY, steps), step, order);
  }

  // What amount_paid records

  lemma CapturedBounds(db: Db, order: string, k: string)
    requires k in db.payments && forall id :: id in db.payments ==> db.payments[id].amount > 0
    ensures 0 <= SumMap(db.payments, CapturedOn(order))
    ensures CapturedOn(order)(k, db.payments[k]) <= SumMap(db.payments, CapturedOn(order))
  {
    SumMapNonnegative(db.payments, CapturedOn(order));
  }

  /** In every run an order that takes one full payment records as paid exactly what was captured for it. */
  lemma FullOrderRecordsCaptured(steps: seq<Step>, order: string)
    requires order in Exec(EMPTY, steps).db.orders && !Exec(EMPTY, steps).db.orders[order].partial
    ensures var db := Exec(EMPTY, steps).db;
            db.orders[order].amountPaid == SumMap(db.payments, CapturedOn(order))
  {
    RunKeepsInv(steps);
    OrderNeverOvercharged(steps, order);
    PaidMatchesCaptured(Exec(EMPTY, steps).db, order);
  }

  lemma PaidMatchesCaptured(db: Db, order: string)
    requires PaymentsOk(db.orders, db.payments) && order in db.orders && OrderOk(order, db.orders[order], db.payments)
    requires !db.orders[order].partial && SumMap(db.payments, CapturedOn(order)) <= db.orders[order].amount
    ensures db.orders[order].amountPaid == SumMap(db.payments, CapturedOn(order))
  {
    if db.orders[order].status == OD.Paid {
      var k :| k in db.payments && db.payments[k].order == order && db.payments[k].status == PD.Captured;
      assert PaymentOk(db.orders, db.payments[k]);
      CapturedBounds(db, order, k);
    } else {
      NothingCaptured(db, order);
    }
  }

  /** In every run any order records as paid what was captured for it exactly while nothing or
      all of its amount has been captured. */
  lemma OrderRecordsCapturedIff(steps: seq<Step>, order: string)
    requires order in Exec(EMPTY, steps).db.orders
    ensures var db := Exec(EMPTY, steps).db;
            var captured := SumMap(db.payments, CapturedOn(order));
            db.orders[order].amountPaid == captured <==> captured == 0 || captured == db.orders[order].amount
  {
    RunKeepsInv(steps);
    RecordsCapturedIff(Exec(EMPTY, steps).db, order);
  }

  lemma RecordsCapturedIff(db: Db, order: string)
    requires PaymentsOk(db.orders, db.payments) && order in db.orders && OrderOk(order, db.orders[order], db.payments)
    ensures var captured := SumMap(db.payments, CapturedOn(order));
            db.orders[order].amountPaid == captured <==> captured == 0 || captured == db.orders[order].amount
  {
    if db.orders[order].status == OD.Paid {
      var k :| k in db.payments && db.payments[k].order == order && db.payments[k].status == PD.Captured;
      assert PaymentOk(db.orders, db.payments[k]);
      CapturedBounds(db, order, k);
    } else {
      NothingCaptured(db, order);
    }
  }

  lemma NothingCaptured(db: Db, order: string)
    requires PaymentsOk(db.orders, db.payments) && order in db.orders && db.orders[order].status != OD.Paid
    ensures SumMap(db.payments, CapturedOn(order)) == 0
  {
    forall k | k in db.payments ensures CapturedOn(order)(k, db.payments[k]) == 0 {
      assert PaymentOk(db.orders, db.payments[k]);
    }
    SumMapZero(db.payments, CapturedOn(order));
  }

  /** For any order, a capture leaves amount_paid at what was captured exactly when this
      capture completes the order amount. */
  lemma CaptureRecordsCapturedIff(db: Db, merchant: string, id: string, amount: int)
    requires DbOk(db) && Capture(db, merchant, id, amount).result == Written
    ensures var order := db.payments[id].order;
            var db' := Capture(db, merchant, id, amount).db;
            && order in db.orders && order in db'.orders
            && (db'.orders[order].amountPaid == SumMap(db'.payments, CapturedOn(order))
                <==> SumMap(db.payments, CapturedOn(order)) + amount == db.orders[order].amount)
  {
    var written, t := CaptureShape(db, merchant, id, amount);
    assert PaymentOk(db.orders, db.payments[id]);
    CaptureRowsRecord(db, id, db.txns + [t]);
  }

  lemma CaptureRowsRecord(db: Db, id: string, txns: seq<Txn>)
    requires id in db.payments && db.payments[id].status == PD.Authorized && PaymentOk(db.orders, db.payments[id])
    ensures var order := db.payments[id].order;
            var db' := CaptureRows(db, id, txns);
            && order in db'.orders && db'.orders[order].amountPaid == db.orders[order].amount
            && SumMap(db'.payments, CapturedOn(order)) == SumMap(db.payments, CapturedOn(order)) + db.payments[id].amount
  {
    SumMapUpdate(db.payments, id, CaptureRows(db, id, txns).payments[id], CapturedOn(db.payments[id].order));
  }

  // A partial order that fails and is then paid

  function PartInput(id: string): AuthInput
  {
    AuthInput(id, "m", "o", 100, "INR", Card, [])
  }

  predicate IsHalves(db: Db)
  {
    && db.payments.Keys == {"p1", "p2"} && "p1" != "p2"
    && "o" in db.orders && db.orders["o"].partial && db.orders["o"].amount == 200 && db.orders["o"].merchant == "m"
    && db.payments["p2"] == NewPayment(PartInput("p2")) && db.txns == []
  }

  /** An order of 200 in parts takes one more part of 100 while at most 100 is committed. */
  lemma PartAuthorizes(d: Db, id: string) returns (db: Db)
    requires d.now == 0 && d.orders.Keys == {"o"} && id !in d.payments && id != ""
    requires d.orders["o"].(status := OD.Attempted) == Order("m", 200, 0, 200, "INR", OD.Attempted, true, 1800 * SECOND)
    requires d.orders["o"].status == OD.Created || d.orders["o"].status == OD.Attempted
    requires Exposure(d.payments, "m", "o") <= 100
    ensures db == StartAuthorization(d, PartInput(id)).db && db.now == 0 && db.txns == d.txns
    ensures db.payments == d.payments[id := NewPayment(PartInput(id))]
    ensures db.orders == map["o" := Order("m", 200, 0, 200, "INR", OD.Attempted, true, 1800 * SECOND)]
  {
    db := StartAuthorization(d, PartInput(id)).db;
    assert |"m"| != |""|;
  }

  lemma StartPart(steps: seq<Step>, d: Db, id: string, tx: nat) returns (steps': seq<Step>)
    requires Exec(EMPTY, steps) == Sys(d, map[])
    ensures Exec(EMPTY, steps') == Sys(StartAuthorization(d, PartInput(id)).db, map[])
  {
    var pieces := [DoLock(tx, PartInput(id)), DoSum(tx), DoInsert(tx), DoCommit(tx)];
    PiecesMakeTheTransaction(d, PartInput(id), tx);
    ExecConcat(EMPTY, steps, pieces);
    steps' := steps + pieces;
  }

  lemma OpenPartialOrder() returns (steps: seq<Step>, db: Db)
    ensures Exec(EMPTY, steps) == Sys(db, map[]) && db.now == 0 && db.payments == map[] && db.txns == []
    ensures db.orders == map["o" := Order("m", 200, 0, 200, "INR", OD.Created, true, 1800 * SECOND)]
  {
    steps := [DoCreateOrder("o", "m", 200, "INR", true)];
    db := CreateOrder(EMPTY.db, "o", "m", 200, "INR", true).db;
    ExecOne(EMPTY, steps[0]);
  }

  /** Two halves of a partial order of 200 authorize side by side. */
  lemma StartBothHalves() returns (steps: seq<Step>, db: Db)
    ensures Exec(EMPTY, steps) == Sys(db, map[]) && db.now == 0 && IsHalves(db)
    ensures db.payments["p1"] == NewPayment(PartInput("p1")) && db.orders["o"].status == OD.Attempted
  {
    var first, d := OpenPartialOrder();
    SumMapZero(d.payments, LiveOn("m", "o"));
    var d1 := PartAuthorizes(d, "p1");
    first := StartPart(first, d, "p1", 1);
    InsertMovesExposure(map[], PartInput("p1"), "m", "o");
    assert "p1"[1] != "p2"[1];
    db := PartAuthorizes(d1, "p2");
    steps := StartPart(first, d1, "p2", 2);
  }

  const WINDOW := 432000 * SECOND

  lemma FirstHalfWaits() returns (steps: seq<Step>, db: Db)
    ensures Exec(EMPTY, steps) == Sys(db, map[]) && IsHalves(db)
    ensures PastWindow(db, WINDOW, "p1") && db.payments["p1"].order == "o" && db.payments["p1"].merchant == "m"
    ensures db.orders["o"].status == OD.Attempted
  {
    var first, d := StartBothHalves();
    var more := [DoAuthorize("m", "p1", None), DoTick(WINDOW)];
    steps := first + more;
    ExecConcat(EMPTY, first, more);
    assert more[..1] == [more[0]];
    ExecOne(Sys(d, map[]), more[0]);
    db := Authorize(d, "m", "p1", None).db.(now := WINDOW);
  }

  /** The window sweep fails the order while its other half is still live. */
  lemma PartialOrderFails() returns (steps: seq<Step>, db: Db)
    ensures Exec(EMPTY, steps) == Sys(db, map[]) && IsHalves(db)
    ensures db.orders["o"].status == OD.Failed && db.payments["p1"].status == PD.AutoRefunded
  {
    var first, d := FirstHalfWaits();
    SweepOne(d, "p1");
    steps := first + [DoRefundWindow(WINDOW, ["p1"])];
    ExecConcat(EMPTY, first, [DoRefundWindow(WINDOW, ["p1"])]);
    ExecOne(Sys(d, map[]), DoRefundWindow(WINDOW, ["p1"]));
    db := RefundOne(d, "p1");
  }

  lemma SweepOne(d: Db, id: string)
    requires PastWindow(d, WINDOW, id)
    ensures Apply(Sys(d, map[]), DoRefundWindow(WINDOW, [id])) == Sys(RefundOne(d, id), map[])
  {
    assert [id][..0] == [];
    assert RefundAll(d, [id]) == RefundOne(d, id);
  }

  lemma OtherHalfAuthorized() returns (steps: seq<Step>, db: Db)
    ensures Exec(EMPTY, steps) == Sys(db, map[]) && db.txns == []
    ensures db.payments.Keys == {"p1", "p2"} && "p1" != "p2" && db.payments["p1"].status == PD.AutoRefunded
    ensures db.payments["p2"] == NewPayment(PartInput("p2")).(status := PD.Authorized, authorizedAt := Some(db.now))
    ensures "o" in db.orders && db.orders["o"].status == OD.Failed && db.orders["o"].amount == 200 && db.orders["o"].merchant == "m"
  {
    var first, d := PartialOrderFails();
    var more := [DoAuthorize("m", "p2", None)];
    steps := first + more;
    ExecConcat(EMPTY, first, more);
    ExecOne(Sys(d, map[]), more[0]);
    db := Authorize(d, "m", "p2", None).db;
  }

  lemma OnlySecondCounts(payments: Payments)
    requires payments.Keys == {"p1", "p2"} && "p1" != "p2" && payments["p1"].status == PD.AutoRefunded
    requires payments["p2"].status == PD.Captured && payments["p2"].order == "o"
    ensures SumMap(payments, CapturedOn("o")) == payments["p2"].amount
  {
    var w := CapturedOn("o");
    SumMapTake(payments, "p1", w);
    SumMapTake(payments - {"p1"}, "p2", w);
    assert (payments - {"p1"} - {"p2"}).Keys == {};
    SumMapZero(payments - {"p1"} - {"p2"}, w);
  }

  lemma SecondHalfPays(db: Db) returns (db': Db)
    requires DbOk(db) && db.txns == [] && db.payments.Keys == {"p1", "p2"} && "p1" != "p2" && db.payments["p1"].status == PD.AutoRefunded
    requires db.payments["p2"] == NewPayment(PartInput("p2")).(status := PD.Authorized, authorizedAt := Some(db.now))
    requires "o" in db.orders && db.orders["o"].amount == 200 && db.orders["o"].merchant == "m"
    ensures db' == Capture(db, "m", "p2", 100).db
    ensures "o" in db'.orders && db'.orders["o"].status == OD.Paid && db'.orders["o"].amountPaid == 200
    ensures SumMap(db'.payments, CapturedOn("o")) == 100
  {
    CaptureSucceedsIff(db, "m", "p2");
    var written, t := CaptureShape(db, "m", "p2", 100);
    db' := CaptureRows(db, "p2", db.txns + [t]);
    OnlySecondCounts(db'.payments);
  }

  /** A reachable state in which a capture takes a partial order from failed to paid and
      records the full amount as paid when only half of it was captured. */
  lemma PartialOrderFailsThenPaid() returns (steps: seq<Step>, db: Db, db': Db)
    ensures Exec(EMPTY, steps) == Sys(db, map[]) && db' == Capture(db, "m", "p2", 100).db
    ensures "o" in db.orders && db.orders["o"].status == OD.Failed
    ensures "o" in db'.orders && db'.orders["o"].status == OD.Paid && db'.orders["o"].amountPaid == 200
    ensures SumMap(db'.payments, CapturedOn("o")) == 100
  {
    steps, db := OtherHalfAuthorized();
    RunKeepsInv(steps);
    db' := SecondHalfPays(db);
  }
}
