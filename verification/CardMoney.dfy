/** What captures move on the ledger, in every run. */
module CardMoney {
  import opened Common
  import opened Ledger
  import opened CaptureJournal
  import opened CardPath
  import opened CardInvariants
  import opened CardRuns
  import opened CardTheorems
  import PD = PaymentDomain

  function CaptureNet(captured: set<string>, merchant: string, a: Account): Txn -> int
  {
    (t: Txn) =>
      if t.source.kind == PAYMENT && t.source.id in captured && t.merchant == merchant then LinesNet(t.lines, OnAccount(a)) else 0
  }

  /** A merchant's balance on an account, counting only the postings of captured payments. */
  ghost function CaptureBalance(txns: seq<Txn>, captured: set<string>, merchant: string, a: Account): int
  {
    SumSeq(txns, CaptureNet(captured, merchant, a))
  }

  function CapturedMovement(merchant: string, a: Account): (string, Payment) -> int
  {
    (id: string, p: Payment) => if p.merchant == merchant && p.status == PD.Captured then Movement(p.amount, a) else 0
  }

  ghost function CapturedMovements(payments: Payments, merchant: string, a: Account): int
  {
    SumMap(payments, CapturedMovement(merchant, a))
  }

  ghost predicate MoneyOk(db: Db, merchant: string, a: Account)
  {
    CaptureBalance(db.txns, CapturedIds(db.payments), merchant, a) == CapturedMovements(db.payments, merchant, a)
  }

  lemma CaptureKeepsMoney(db: Db, merchant: string, id: string, amount: int, m: string, a: Account)
    requires LedgerOk(db.txns) && MoneyOk(db, m, a)
    ensures MoneyOk(Capture(db, merchant, id, amount).db, m, a)
  {
    var written, t := CaptureShape(db, merchant, id, amount);
    if written {
      WrittenFindsSourceFree(db, merchant, id, amount);
      EntriesNet(db.payments[id].merchant, PaymentCapture(id), amount, db.payments[id].splits, a);
      CaptureRowsKeepMoney(db, id, t, m, a);
    }
  }

  lemma CaptureRowsKeepMoney(db: Db, id: string, t: Txn, m: string, a: Account)
    requires MoneyOk(db, m, a) && id in db.payments && db.payments[id].status == PD.Authorized
    requires t.source == PaymentCapture(id) && t.merchant == db.payments[id].merchant && !SourceUsed(db.txns, t.source)
    requires LinesNet(t.lines, OnAccount(a)) == Movement(db.payments[id].amount, a)
    ensures MoneyOk(CaptureRows(db, id, db.txns + [t]), m, a)
  {
    var db' := CaptureRows(db, id, db.txns + [t]);
    var captured := CapturedIds(db.payments);
    assert CapturedIds(db'.payments) == captured + {id};
    SumAppend(db.txns, t, CaptureNet(captured + {id}, m, a));
    FreeSourceAddsNothing(db.txns, captured, id, m, a);
    SumMapUpdate(db.payments, id, db'.payments[id], CapturedMovement(m, a));
  }

  lemma FreeSourceAddsNothing(txns: seq<Txn>, captured: set<string>, id: string, m: string, a: Account)
    requires !SourceUsed(txns, PaymentCapture(id))
    ensures CaptureBalance(txns, captured + {id}, m, a) == CaptureBalance(txns, captured, m, a)
  {
    forall t | t in txns ensures CaptureNet(captured + {id}, m, a)(t) == CaptureNet(captured, m, a)(t) {
      assert t.source != PaymentCapture(id);
    }
    SumCongruent(txns, CaptureNet(captured + {id}, m, a), CaptureNet(captured, m, a));
  }

  /** A posting of somebody else is not one of a captured payment. */
  lemma OtherPostingKeepsMoney(db: Db, merchant: string, source: Source, entries: seq<Entry>, m: string, a: Account)
    requires DbOk(db) && MoneyOk(db, m, a) && Post(db.txns, merchant, source, entries).Posted?
    ensures MoneyOk(db.(txns := Post(db.txns, merchant, source, entries).txns), m, a)
  {
    var t := MakeTxn(merchant, source, entries);
    assert source.id in CapturedIds(db.payments) ==> SourceUsed(db.txns, PaymentCapture(source.id));
    assert source.kind == PAYMENT ==> source == PaymentCapture(source.id);
    SumAppend(db.txns, t, CaptureNet(CapturedIds(db.payments), m, a));
  }

  lemma RefundKeepsMoney(db: Db, rows: seq<string>, m: string, a: Account)
    requires AllAuthorized(db.payments, rows) && MoneyOk(db, m, a)
    ensures MoneyOk(RefundAll(db, rows), m, a)
  {
    forall k ensures k in CapturedIds(RefundAll(db, rows).payments) <==> k in CapturedIds(db.payments) {
      RefundUsesNoSource(db, rows, k);
      assert k in CapturedIds(db.payments) <==> IsCaptured(db, k);
    }
    assert CapturedIds(RefundAll(db, rows).payments) == CapturedIds(db.payments);
    RefundUsesNoSource(db, rows, "");
    RefundsMoveNothing(db, rows, m, a);
  }

  lemma RefundsMoveNothing(db: Db, rows: seq<string>, m: string, a: Account)
    requires AllAuthorized(db.payments, rows)
    ensures SumMap(RefundAll(db, rows).payments, CapturedMovement(m, a)) == SumMap(db.payments, CapturedMovement(m, a))
  {
    RefundAllRows(db, rows);
    var payments' := RefundAll(db, rows).payments;
    forall k | k in payments' ensures CapturedMovement(m, a)(k, payments'[k]) == CapturedMovement(m, a)(k, db.payments[k]) {
    }
    SumMapCongruent(payments', db.payments, CapturedMovement(m, a));
  }

  lemma QuietStepKeepsMoney(db: Db, step: Step, m: string, a: Account)
    requires IsQuietStep(step) && MoneyOk(db, m, a)
    ensures MoneyOk(ApplyDb(db, step), m, a)
  {
    if ApplyDb(db, step) != db {
      var id, p, challenges, events := QuietStep(db, step);
      assert CapturedIds(db.payments[id := p]) == CapturedIds(db.payments);
      SumMapUpdate(db.payments, id, p, CapturedMovement(m, a));
    }
  }

  lemma DbStepKeepsMoney(s: Sys, step: Step, m: string, a: Account)
    requires DbOk(s.db) && !Waits(s, step) && !IsAuthStep(step) && MoneyOk(s.db, m, a)
    ensures MoneyOk(ApplyDb(s.db, step), m, a)
  {
    if IsOrderStep(step) {
      var orders, events := OrderStep(s, step);
    } else if IsQuietStep(step) {
      QuietStepKeepsMoney(s.db, step, m, a);
    } else {
      match step
      case DoCaptureStep(merchant, id, amount) => CaptureKeepsMoney(s.db, merchant, id, amount, m, a);
      case DoRefundWindow(window, rows) =>
        if IsSelection(s.db, window, rows) {
          SelectedRowsAreFree(s, window, rows);
          RefundKeepsMoney(s.db, rows, m, a);
        }
      case DoOtherPosting(merchant, source, entries) =>
        if Post(s.db.txns, merchant, source, entries).Posted? {
          OtherPostingKeepsMoney(s.db, merchant, source, entries, m, a);
        }
      case DoTick(_) =>
    }
  }

  lemma AuthStepKeepsMoney(s: Sys, step: Step, m: string, a: Account)
    requires TxsOk(s) && IsAuthStep(step) && MoneyOk(s.db, m, a)
    ensures MoneyOk(ApplyAuth(s, step).db, m, a)
  {
    if step.DoCommit? && step.tx in s.open && s.open[step.tx].phase == Inserted {
      var input := s.open[step.tx].input;
      assert TxOk(s.db, s.open[step.tx]);
      assert CapturedIds(s.db.payments[input.id := NewPayment(input)]) == CapturedIds(s.db.payments);
      SumMapInsert(s.db.payments, input.id, NewPayment(input), CapturedMovement(m, a));
    }
  }

  /** In every run the postings of a merchant's captured payments move each account by exactly what
      these payments call for: receivable by their sum, fee revenue by minus the floored
      fees, payable by minus the rest, every other account by nothing. */
  lemma {:induction false} CapturesMoveMoney(steps: seq<Step>, merchant: string, a: Account)
    ensures MoneyOk(Exec(EMPTY, steps).db, merchant, a)
  {
    if |steps| > 0 {
      var s, step := Exec(EMPTY, steps[..|steps| - 1]), steps[|steps| - 1];
      CapturesMoveMoney(steps[..|steps| - 1], merchant, a);
      RunKeepsInv(steps[..|steps| - 1]);
      if Waits(s, step) {
      } else if IsAuthStep(step) {
        AuthStepKeepsMoney(s, step, merchant, a);
      } else {
        DbStepKeepsMoney(s, step, merchant, a);
      }
    }
  }

  function CapturedAmount(merchant: string): (string, Payment) -> int
  {
    (id: string, p: Payment) => if p.merchant == merchant && p.status == PD.Captured then p.amount else 0
  }

  /** The fee as stored on the payment row. */
  function CapturedFee(merchant: string): (string, Payment) -> int
  {
    (id: string, p: Payment) => if p.merchant == merchant && p.status == PD.Captured then p.fee else 0
  }

  lemma FeesOnRows(orders: Orders, payments: Payments)
    requires PaymentsOk(orders, payments)
    ensures forall k :: k in payments && payments[k].status == PD.Captured ==> payments[k].fee == Fee(payments[k].amount)
  {
    forall k | k in payments && payments[k].status == PD.Captured ensures payments[k].fee == Fee(payments[k].amount) {
      assert PaymentOk(orders, payments[k]);
    }
  }

  /** The fee on a captured row is two percent of its amount, rounded down. */
  lemma FeesAreTwoPercent(orders: Orders, payments: Payments)
    requires PaymentsOk(orders, payments)
    ensures forall k :: k in CapturedIds(payments) ==>
              100 * payments[k].fee <= 2 * payments[k].amount < 100 * payments[k].fee + 100
  {
    forall k | k in CapturedIds(payments)
      ensures 100 * payments[k].fee <= 2 * payments[k].amount < 100 * payments[k].fee + 100
    {
      assert PaymentOk(orders, payments[k]);
      FeeIsTwoPercent(payments[k].amount);
    }
  }

  lemma FeesFromRows(orders: Orders, payments: Payments, merchant: string)
    requires PaymentsOk(orders, payments)
    ensures CapturedMovements(payments, merchant, PlatformFeeRevenue) == -SumMap(payments, CapturedFee(merchant))
  {
    FeesOnRows(orders, payments);
    var nothing := (id: string, p: Payment) => 0;
    SumMapZero(payments, nothing);
    SumMapDifference(payments, nothing, CapturedFee(merchant), CapturedMovement(merchant, PlatformFeeRevenue));
  }

  lemma AmountsFromRows(orders: Orders, payments: Payments, merchant: string)
    requires PaymentsOk(orders, payments)
    ensures CapturedMovements(payments, merchant, CustomerReceivable) == SumMap(payments, CapturedAmount(merchant))
  {
    SumMapMonotone(payments, CapturedAmount(merchant), CapturedMovement(merchant, CustomerReceivable));
    SumMapMonotone(payments, CapturedMovement(merchant, CustomerReceivable), CapturedAmount(merchant));
  }

  lemma RestFromRows(orders: Orders, payments: Payments, merchant: string)
    requires PaymentsOk(orders, payments)
    ensures CapturedMovements(payments, merchant, MerchantPayable)
            == -(SumMap(payments, CapturedAmount(merchant)) - SumMap(payments, CapturedFee(merchant)))
  {
    FeesOnRows(orders, payments);
    SumMapDifference(
      payments, CapturedFee(merchant), CapturedAmount(merchant), CapturedMovement(merchant, MerchantPayable));
  }

  /** The three accounts of a capture, from the amounts and fees on the captured rows. */
  lemma CapturesByAccount(steps: seq<Step>, merchant: string)
    ensures var db := Exec(EMPTY, steps).db;
            var amounts := SumMap(db.payments, CapturedAmount(merchant));
            var fees := SumMap(db.payments, CapturedFee(merchant));
            var captured := CapturedIds(db.payments);
            && CaptureBalance(db.txns, captured, merchant, CustomerReceivable) == amounts
            && CaptureBalance(db.txns, captured, merchant, PlatformFeeRevenue) == -fees
            && CaptureBalance(db.txns, captured, merchant, MerchantPayable) == -(amounts - fees)
            && forall id :: id in captured ==>
                 var p := db.payments[id]; 100 * p.fee <= 2 * p.amount < 100 * p.fee + 100
  {
    var db := Exec(EMPTY, steps).db;
    RunKeepsInv(steps);
    CapturesMoveMoney(steps, merchant, CustomerReceivable);
    CapturesMoveMoney(steps, merchant, PlatformFeeRevenue);
    CapturesMoveMoney(steps, merchant, MerchantPayable);
    FeesFromRows(db.orders, db.payments, merchant);
    AmountsFromRows(db.orders, db.payments, merchant);
    RestFromRows(db.orders, db.payments, merchant);
    FeesAreTwoPercent(db.orders, db.payments);
  }

  function PaymentNet(merchant: string, a: Account): Txn -> int
  {
    (t: Txn) => if t.source.kind == PAYMENT && t.merchant == merchant then LinesNet(t.lines, OnAccount(a)) else 0
  }

  /** Where nobody else posts under a payment's source, these are all postings of that source type. */
  lemma PaymentPostingsAreCaptures(steps: seq<Step>, merchant: string, a: Account)
    requires forall id :: !Taken(steps, id)
    ensures var db := Exec(EMPTY, steps).db;
            SumSeq(db.txns, PaymentNet(merchant, a)) == CapturedMovements(db.payments, merchant, a)
  {
    var db := Exec(EMPTY, steps).db;
    forall t | t in db.txns ensures PaymentNet(merchant, a)(t) == CaptureNet(CapturedIds(db.payments), merchant, a)(t) {
      if t.source.kind == PAYMENT {
        assert SourceUsed(db.txns, PaymentCapture(t.source.id));
        SourceUsedIff(steps, t.source.id);
      }
    }
    SumCongruent(db.txns, PaymentNet(merchant, a), CaptureNet(CapturedIds(db.payments), merchant, a));
    CapturesMoveMoney(steps, merchant, a);
  }
}
