/** Every interleaving of card-path transactions, with StartAuthorization taken apart
    at its order lock, its sum, its inserts and its commit. */
module CardRuns {
  import opened Common
  import opened Ledger
  import opened CaptureJournal
  import opened CardPath
  import opened CardInvariants
  import PD = PaymentDomain
  import OD = OrderDomain

  /** How far an open authorization has come; it holds the order lock throughout. */
  datatype Phase = Locked | Summed(committed: int) | Inserted

  /** An open transaction and the order row it read under the lock. */
  datatype AuthTx = AuthTx(input: AuthInput, row: Order, phase: Phase)

  datatype Sys = Sys(db: Db, open: map<nat, AuthTx>)

  datatype Step =
    | DoCreateOrder(id: string, merchant: string, amount: int, currency: string, partial: bool)
    | DoFailedAttempt(merchant: string, order: string)
    | DoExpireOrders(chosen: set<string>)
    | DoLock(tx: nat, input: AuthInput)
    | DoSum(tx: nat)
    | DoInsert(tx: nat)
    | DoCommit(tx: nat)
    | DoRollback(tx: nat)
    | DoRequireAction(merchant: string, id: string, token: string, autoCapture: bool, expiresAt: int)
    | DoAuthorize(merchant: string, id: string, autoCaptureAt: Option<int>)
    | DoFailAuthorization(merchant: string, id: string, description: string)
    | DoCompleteChallenge(merchant: string, id: string, token: string, completedAt: int)
    | DoFailChallenge(merchant: string, id: string, token: string, description: string, status: ChallengeStatus)
    | DoReverse(merchant: string, id: string, reason: string)
    | DoCaptureStep(merchant: string, id: string, amount: int)
    | DoRefundWindow(window: int, rows: seq<string>)
    | DoOtherPosting(merchant: string, source: Source, entries: seq<Entry>)
    | DoTick(now: int)

  predicate LockedOrder(s: Sys, order: string)
  {
    exists t :: t in s.open && s.open[t].input.order == order
  }

  /** A transaction that would write an order row waits while that row is locked. */
  predicate Waits(s: Sys, step: Step)
  {
    match step
    case DoFailedAttempt(_, order) => LockedOrder(s, order)
    case DoLock(_, input) => LockedOrder(s, input.order)
    case DoCaptureStep(_, id, _) => id in s.db.payments && LockedOrder(s, s.db.payments[id].order)
    case DoRefundWindow(_, chosen) =>
      exists i :: 0 <= i < |chosen| && chosen[i] in s.db.payments && LockedOrder(s, s.db.payments[chosen[i]].order)
    case DoExpireOrders(chosen) => exists o :: o in chosen && LockedOrder(s, o)
    case _ => false
  }

  /** Two open transactions cannot insert the same primary key. */
  predicate KeyFree(s: Sys, tx: nat, id: string)
  {
    id !in s.db.payments && forall t :: t in s.open && t != tx && s.open[t].phase == Inserted ==> s.open[t].input.id != id
  }

  /** The pieces of StartAuthorization. */
  predicate IsAuthStep(step: Step)
  {
    step.DoLock? || step.DoSum? || step.DoInsert? || step.DoCommit? || step.DoRollback?
  }

  ghost function ApplyAuth(s: Sys, step: Step): Sys
    requires IsAuthStep(step)
  {
    match step
    case DoLock(tx, input) =>
      if tx in s.open || OrderCheck(s.db, input).Some? then s
      else s.(open := s.open[tx := AuthTx(input, s.db.orders[input.order], Locked)])
    case DoSum(tx) =>
      if tx !in s.open || s.open[tx].phase != Locked then s
      else
        var a := s.open[tx];
        var committed := Exposure(s.db.payments, a.input.merchant, a.input.order);
        if committed + a.input.amount > a.row.amount then s.(open := s.open - {tx})
        else s.(open := s.open[tx := a.(phase := Summed(committed))])
    case DoInsert(tx) =>
      if tx !in s.open || !s.open[tx].phase.Summed? then s
      else
        var a := s.open[tx];
        if KeyFree(s, tx, a.input.id) && SplitsAccepted(a.input.splits)
        then s.(open := s.open[tx := a.(phase := Inserted)])
        else s.(open := s.open - {tx})
    case DoCommit(tx) =>
      if tx !in s.open || s.open[tx].phase != Inserted then s
      else Sys(InsertPayment(s.db, s.open[tx].input), s.open - {tx})
    case DoRollback(tx) => s.(open := s.open - {tx})
  }

  /** Every transaction other than StartAuthorization is one atomic step on the tables. */
  function ApplyDb(db: Db, step: Step): Db
    requires !IsAuthStep(step)
  {
    match step
    case DoCreateOrder(id, merchant, amount, currency, partial) => CreateOrder(db, id, merchant, amount, currency, partial).db
    case DoFailedAttempt(merchant, order) => FailedAttempt(db, merchant, order).db
    case DoExpireOrders(chosen) => if forall o :: o in chosen ==> OrderDue(db, o) then ExpireOrders(db, chosen) else db
    case DoRequireAction(merchant, id, token, autoCapture, expiresAt) =>
      RequireAction(db, merchant, id, token, autoCapture, expiresAt).db
    case DoAuthorize(merchant, id, autoCaptureAt) => Authorize(db, merchant, id, autoCaptureAt).db
    case DoFailAuthorization(merchant, id, description) => FailAuthorization(db, merchant, id, description).db
    case DoCompleteChallenge(merchant, id, token, completedAt) => CompleteChallenge(db, merchant, id, token, completedAt).db
    case DoFailChallenge(merchant, id, token, description, status) =>
      FailChallenge(db, merchant, id, token, description, status).db
    case DoReverse(merchant, id, reason) => Reverse(db, merchant, id, reason).db
    case DoCaptureStep(merchant, id, amount) => Capture(db, merchant, id, amount).db
    case DoRefundWindow(window, chosen) => if IsSelection(db, window, chosen) then RefundAll(db, chosen) else db
    case DoOtherPosting(merchant, source, entries) =>
      (match Post(db.txns, merchant, source, entries) case Posted(txns) => db.(txns := txns) case _ => db)
    case DoTick(now) => if now >= db.now then db.(now := now) else db
  }

  ghost function Apply(s: Sys, step: Step): Sys
  {
    if Waits(s, step) then s
    else if IsAuthStep(step) then ApplyAuth(s, step)
    else s.(db := ApplyDb(s.db, step))
  }

  ghost function Exec(s: Sys, steps: seq<Step>): Sys
  {
    if |steps| == 0 then s else Apply(Exec(s, steps[..|steps| - 1]), steps[|steps| - 1])
  }

  const EMPTY := Sys(Db(map[], map[], map[], [], [], 0), map[])

  // What an open transaction may rely on

  /** The lock freezes the order row, and exposure can only fall below what was summed. */
  ghost predicate TxOk(db: Db, a: AuthTx)
  {
    && a.input.order in db.orders && db.orders[a.input.order] == a.row
    && a.row.merchant == a.input.merchant && (a.row.status == OD.Created || a.row.status == OD.Attempted)
    && a.input.currency == a.row.currency && a.input.amount > 0 && (!a.row.partial ==> a.input.amount == a.row.amount)
    && match a.phase
       case Locked => true
       case Summed(committed) =>
         Exposure(db.payments, a.input.merchant, a.input.order) <= committed && committed + a.input.amount <= a.row.amount
       case Inserted => MayInsert(db, a.input)
  }

  ghost predicate TxsOk(s: Sys)
  {
    && (forall t :: t in s.open ==> TxOk(s.db, s.open[t]))
    && (forall t, u :: t in s.open && u in s.open && t != u ==> s.open[t].input.order != s.open[u].input.order)
    && (forall t, u :: t in s.open && u in s.open && t != u && s.open[t].phase == Inserted && s.open[u].phase == Inserted ==>
          s.open[t].input.id != s.open[u].input.id)
  }

  ghost predicate Inv(s: Sys)
  {
    DbOk(s.db) && TxsOk(s)
  }

  /** Locked order rows are as they were, and nothing asks for more money than before. */
  ghost predicate Gentle(s: Sys, db': Db)
  {
    && NoNewExposure(s.db.payments, db'.payments)
    && forall o :: o in s.db.orders && LockedOrder(s, o) ==> o in db'.orders && db'.orders[o] == s.db.orders[o]
  }

  /** Such a step cannot upset an open transaction. */
  lemma GentleKeepsTxsOk(s: Sys, db': Db)
    requires TxsOk(s) && Gentle(s, db')
    ensures TxsOk(s.(db := db'))
  {
    forall t | t in s.open ensures TxOk(db', s.open[t]) {
      var a := s.open[t];
      assert TxOk(s.db, a) && LockedOrder(s, a.input.order);
      assert Exposure(db'.payments, a.input.merchant, a.input.order) <= Exposure(s.db.payments, a.input.merchant, a.input.order);
    }
  }

  // Steps on the tables

  predicate IsQuietStep(step: Step)
  {
    || step.DoRequireAction? || step.DoAuthorize? || step.DoFailAuthorization?
    || step.DoCompleteChallenge? || step.DoFailChallenge? || step.DoReverse?
  }

  /** The row and the event a quiet step writes, if it writes. */
  lemma QuietStep(db: Db, step: Step) returns (id: string, p: Payment, challenges: map<string, Challenge>, events: seq<Event>)
    requires IsQuietStep(step) && ApplyDb(db, step) != db
    ensures id in db.payments && IsQuiet(db.payments[id], p)
    ensures |events| <= 1 && (|events| == 1 ==> events[0].kind != PaymentCaptured)
    ensures ApplyDb(db, step) == Rewrite(db, id, p, challenges, events).db
    ensures PD.EdgeOrStutter(db.payments[id].status, p.status)
  {
    var db' := ApplyDb(db, step);
    id := step.id;
    p, challenges, events := db'.payments[id], db'.challenges, db'.events[|db.events|..];
    assert db'.events == db.events + events;
    PD.EdgesAre(db.payments[id].status, p.status);
  }

  lemma QuietStepKeepsInv(s: Sys, step: Step)
    requires Inv(s) && IsQuietStep(step)
    ensures Inv(s.(db := ApplyDb(s.db, step)))
  {
    if ApplyDb(s.db, step) != s.db {
      var id, p, challenges, events := QuietStep(s.db, step);
      QuietKeepsDbOk(s.db, id, p, challenges, events);
      GentleKeepsTxsOk(s, ApplyDb(s.db, step));
    }
  }

  /** A capture that writes appends one posting for its payment; any other changes nothing. */
  lemma CaptureShape(db: Db, merchant: string, id: string, amount: int) returns (written: bool, t: Txn)
    requires LedgerOk(db.txns)
    ensures written <==> Capture(db, merchant, id, amount).result == Written
    ensures !written ==> Capture(db, merchant, id, amount).db == db
    ensures written ==>
              && id in db.payments && db.payments[id].status == PD.Authorized
              && amount == db.payments[id].amount && Residual(amount, db.payments[id].splits) >= 0
              && t == MakeTxn(db.payments[id].merchant, PaymentCapture(id), Entries(amount, db.payments[id].splits))
              && LedgerOk(db.txns + [t])
              && Capture(db, merchant, id, amount).db == CaptureRows(db, id, db.txns + [t])
  {
    written := Capture(db, merchant, id, amount).result == Written;
    if written {
      var entries := Entries(amount, db.payments[id].splits);
      PostKeepsLedgerOk(db.txns, merchant, PaymentCapture(id), entries);
      t := MakeTxn(merchant, PaymentCapture(id), entries);
    } else {
      t := Txn("", PaymentCapture(id), "", 0, 0, []);
    }
  }

  lemma CaptureIsGentle(s: Sys, id: string, txns: seq<Txn>)
    requires id in s.db.payments && !LockedOrder(s, s.db.payments[id].order)
    requires NoNewExposure(s.db.payments, CaptureRows(s.db, id, txns).payments)
    ensures Gentle(s, CaptureRows(s.db, id, txns))
  {
  }

  lemma CaptureRowsKeepInv(s: Sys, id: string, t: Txn)
    requires Inv(s) && id in s.db.payments && s.db.payments[id].status == PD.Authorized && !LockedOrder(s, s.db.payments[id].order)
    requires t.source == PaymentCapture(id) && LedgerOk(s.db.txns + [t])
    ensures Inv(s.(db := CaptureRows(s.db, id, s.db.txns + [t])))
  {
    CaptureRowsKeepDbOk(s.db, id, t);
    assert TxsOk(s.(db := CaptureRows(s.db, id, s.db.txns + [t]))) by {
      CaptureIsGentle(s, id, s.db.txns + [t]);
      GentleKeepsTxsOk(s, CaptureRows(s.db, id, s.db.txns + [t]));
    }
  }

  /** The tables after a capture, written or not. */
  lemma CaptureOutcome(db: Db, merchant: string, id: string, amount: int) returns (written: bool, t: Txn, db': Db)
    requires LedgerOk(db.txns)
    ensures db' == Capture(db, merchant, id, amount).db
    ensures if written then id in db.payments && db' == CaptureRows(db, id, db.txns + [t]) else db' == db
    ensures written ==> db.payments[id].status == PD.Authorized && t.source == PaymentCapture(id) && LedgerOk(db.txns + [t])
  {
    written, t := CaptureShape(db, merchant, id, amount);
    db' := Capture(db, merchant, id, amount).db;
  }

  lemma CaptureStepKeepsInv(s: Sys, merchant: string, id: string, amount: int)
    requires Inv(s) && !Waits(s, DoCaptureStep(merchant, id, amount))
    ensures Inv(s.(db := Capture(s.db, merchant, id, amount).db))
  {
    var written, t, db' := CaptureOutcome(s.db, merchant, id, amount);
    if written {
      CaptureRowsKeepInv(s, id, t);
    }
  }

  lemma {:induction false} RefundAllLeavesOtherOrders(db: Db, chosen: seq<string>, o: string)
    requires forall i :: 0 <= i < |chosen| ==> chosen[i] in db.payments && db.payments[chosen[i]].order != o
    ensures o in db.orders ==> o in RefundAll(db, chosen).orders && RefundAll(db, chosen).orders[o] == db.orders[o]
  {
    if |chosen| > 0 {
      RefundAllLeavesOtherOrders(db, chosen[..|chosen| - 1], o);
      RefundAllRows(db, chosen[..|chosen| - 1]);
    }
  }

  lemma RefundLeavesLockedOrders(s: Sys, rows: seq<string>)
    requires AllAuthorized(s.db.payments, rows)
    requires forall i :: 0 <= i < |rows| ==> !LockedOrder(s, s.db.payments[rows[i]].order)
    ensures var orders := RefundAll(s.db, rows).orders;
            forall o :: o in s.db.orders && LockedOrder(s, o) ==> o in orders && orders[o] == s.db.orders[o]
  {
    forall o | o in s.db.orders && LockedOrder(s, o)
      ensures o in RefundAll(s.db, rows).orders && RefundAll(s.db, rows).orders[o] == s.db.orders[o]
    {
      RefundAllLeavesOtherOrders(s.db, rows, o);
    }
  }

  lemma SelectedRowsAreFree(s: Sys, window: int, rows: seq<string>)
    requires IsSelection(s.db, window, rows) && !Waits(s, DoRefundWindow(window, rows))
    ensures AllAuthorized(s.db.payments, rows)
    ensures forall i :: 0 <= i < |rows| ==> !LockedOrder(s, s.db.payments[rows[i]].order)
  {
    assert forall i :: 0 <= i < |rows| ==> PastWindow(s.db, window, rows[i]);
  }

  lemma RefundStepKeepsInv(s: Sys, rows: seq<string>)
    requires Inv(s) && AllAuthorized(s.db.payments, rows)
    requires forall i :: 0 <= i < |rows| ==> !LockedOrder(s, s.db.payments[rows[i]].order)
    ensures Inv(s.(db := RefundAll(s.db, rows)))
  {
    var db' := RefundIsGentle(s, rows);
    GentleKeepsTxsOk(s, db');
  }

  lemma RefundIsGentle(s: Sys, rows: seq<string>) returns (db': Db)
    requires DbOk(s.db) && AllAuthorized(s.db.payments, rows)
    requires forall i :: 0 <= i < |rows| ==> !LockedOrder(s, s.db.payments[rows[i]].order)
    ensures db' == RefundAll(s.db, rows) && DbOk(db') && Gentle(s, db')
  {
    db' := RefundAll(s.db, rows);
    RefundAllKeepsDbOk(s.db, rows);
    RefundLeavesLockedOrders(s, rows);
  }

  predicate IsOrderStep(step: Step)
  {
    step.DoCreateOrder? || step.DoFailedAttempt? || step.DoExpireOrders?
  }

  /** The order rows an order step writes: no locked one, and only out of created. */
  lemma OrderStep(s: Sys, step: Step) returns (orders: Orders, events: seq<Event>)
    requires IsOrderStep(step) && !Waits(s, step)
    ensures ApplyDb(s.db, step) == s.db.(orders := orders, events := s.db.events + events)
    ensures |events| <= 1 && (|events| == 1 ==> events[0].kind != PaymentCaptured)
    ensures s.db.orders.Keys <= orders.Keys && forall o :: o in s.db.orders ==> OrderMayMove(s.db.orders[o], orders[o])
    ensures forall o :: o in orders && o !in s.db.orders ==> IsNewOrder(orders[o])
    ensures forall o :: o in s.db.orders && LockedOrder(s, o) ==> orders[o] == s.db.orders[o]
  {
    var db' := ApplyDb(s.db, step);
    orders, events := db'.orders, db'.events[|s.db.events|..];
    assert db'.events == s.db.events + events;
  }

  lemma OrderStepKeepsInv(s: Sys, step: Step)
    requires Inv(s) && !Waits(s, step) && IsOrderStep(step)
    ensures Inv(s.(db := ApplyDb(s.db, step)))
  {
    var orders, events := OrderStep(s, step);
    OrderRowsKeepDbOk(s.db, orders, events);
    GentleKeepsTxsOk(s, s.db.(orders := orders, events := s.db.events + events));
  }

  lemma DbStepKeepsInv(s: Sys, step: Step)
    requires Inv(s) && !Waits(s, step) && !IsAuthStep(step)
    ensures Inv(s.(db := ApplyDb(s.db, step)))
  {
    match step
    case DoCreateOrder(_, _, _, _, _) => OrderStepKeepsInv(s, step);
    case DoFailedAttempt(_, _) => OrderStepKeepsInv(s, step);
    case DoExpireOrders(_) => OrderStepKeepsInv(s, step);
    case DoCaptureStep(merchant, id, amount) => CaptureStepKeepsInv(s, merchant, id, amount);
    case DoRefundWindow(window, rows) =>
      if IsSelection(s.db, window, rows) {
        SelectedRowsAreFree(s, window, rows);
        RefundStepKeepsInv(s, rows);
      }
    case DoOtherPosting(merchant, source, entries) =>
      if Post(s.db.txns, merchant, source, entries).Posted? {
        PostKeepsDbOk(s.db, merchant, source, entries);
        GentleKeepsTxsOk(s, ApplyDb(s.db, step));
      }
    case DoTick(_) => GentleKeepsTxsOk(s, ApplyDb(s.db, step));
    case _ => QuietStepKeepsInv(s, step);
  }

  // Steps of an authorization

  /** Replacing or adding one open transaction, on an order and a key no other one uses. */
  lemma OneTxKeepsTxsOk(s: Sys, tx: nat, a: AuthTx)
    requires TxsOk(s) && TxOk(s.db, a)
    requires forall t :: t in s.open && t != tx ==> s.open[t].input.order != a.input.order
    requires a.phase == Inserted ==> KeyFree(s, tx, a.input.id)
    ensures TxsOk(s.(open := s.open[tx := a]))
  {
  }

  lemma ClosingKeepsTxsOk(s: Sys, tx: nat)
    requires TxsOk(s)
    ensures TxsOk(s.(open := s.open - {tx}))
  {
  }

  lemma LockKeepsInv(s: Sys, tx: nat, input: AuthInput)
    requires Inv(s) && !Waits(s, DoLock(tx, input))
    ensures Inv(ApplyAuth(s, DoLock(tx, input)))
  {
    if tx !in s.open && OrderCheck(s.db, input).None? {
      OneTxKeepsTxsOk(s, tx, AuthTx(input, s.db.orders[input.order], Locked));
    }
  }

  lemma SumKeepsInv(s: Sys, tx: nat)
    requires Inv(s)
    ensures Inv(ApplyAuth(s, DoSum(tx)))
  {
    if tx in s.open && s.open[tx].phase == Locked {
      var a := s.open[tx];
      var committed := Exposure(s.db.payments, a.input.merchant, a.input.order);
      assert TxOk(s.db, a);
      ClosingKeepsTxsOk(s, tx);
      if committed + a.input.amount <= a.row.amount {
        OneTxKeepsTxsOk(s, tx, a.(phase := Summed(committed)));
      }
    }
  }

  lemma InsertKeepsInv(s: Sys, tx: nat)
    requires Inv(s)
    ensures Inv(ApplyAuth(s, DoInsert(tx)))
  {
    if tx in s.open && s.open[tx].phase.Summed? {
      var a := s.open[tx];
      assert TxOk(s.db, a);
      ClosingKeepsTxsOk(s, tx);
      if KeyFree(s, tx, a.input.id) && SplitsAccepted(a.input.splits) {
        OneTxKeepsTxsOk(s, tx, a.(phase := Inserted));
      }
    }
  }

  /** The committed row takes exactly the room the sum left; other open orders are untouched. */
  lemma CommitKeepsOtherTx(s: Sys, tx: nat, t: nat)
    requires TxsOk(s) && tx in s.open && s.open[tx].phase == Inserted && t in s.open && t != tx
    ensures TxOk(InsertPayment(s.db, s.open[tx].input), s.open[t])
  {
    var input, other := s.open[tx].input, s.open[t].input;
    assert TxOk(s.db, s.open[tx]) && TxOk(s.db, s.open[t]);
    InsertMovesExposure(s.db.payments, input, other.merchant, other.order);
  }

  lemma CommitKeepsInv(s: Sys, tx: nat)
    requires Inv(s) && tx in s.open && s.open[tx].phase == Inserted
    ensures Inv(Sys(InsertPayment(s.db, s.open[tx].input), s.open - {tx}))
  {
    assert TxOk(s.db, s.open[tx]);
    InsertKeepsDbOk(s.db, s.open[tx].input);
    forall t | t in s.open && t != tx ensures TxOk(InsertPayment(s.db, s.open[tx].input), s.open[t]) {
      CommitKeepsOtherTx(s, tx, t);
    }
  }

  lemma AuthStepKeepsInv(s: Sys, step: Step)
    requires Inv(s) && !Waits(s, step) && IsAuthStep(step)
    ensures Inv(ApplyAuth(s, step))
  {
    match step
    case DoLock(tx, input) => LockKeepsInv(s, tx, input);
    case DoSum(tx) => SumKeepsInv(s, tx);
    case DoInsert(tx) => InsertKeepsInv(s, tx);
    case DoCommit(tx) => if tx in s.open && s.open[tx].phase == Inserted { CommitKeepsInv(s, tx); }
    case DoRollback(tx) => ClosingKeepsTxsOk(s, tx);
  }

  lemma StepKeepsInv(s: Sys, step: Step)
    requires Inv(s)
    ensures Inv(Apply(s, step))
  {
    if Waits(s, step) {
    } else if IsAuthStep(step) {
      AuthStepKeepsInv(s, step);
    } else {
      DbStepKeepsInv(s, step);
    }
  }

  lemma {:induction false} RunKeepsInv(steps: seq<Step>)
    ensures Inv(Exec(EMPTY, steps))
  {
    if |steps| > 0 {
      RunKeepsInv(steps[..|steps| - 1]);
      StepKeepsInv(Exec(EMPTY, steps[..|steps| - 1]), steps[|steps| - 1]);
    }
  }
}
