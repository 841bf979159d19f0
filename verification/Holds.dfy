/** Holds on ledger accounts, the payoutable balance derived from them, and every run of both. */
module Holds {
  import opened Common
  import opened Ledger

  datatype HoldStatus = Active | Released | Committed | Expired

  datatype Hold = Hold(
    merchant: string, account: Account, currency: string, amount: int,
    status: HoldStatus, expiresAt: Option<int>, target: Option<Account>)

  /** The ledger tables at one instant. */
  datatype Book = Book(txns: seq<Txn>, holds: map<string, Hold>, now: int)

  datatype CreateInput = CreateInput(
    merchant: string, account: Account, sourceType: string, sourceId: string,
    currency: string, amount: int, expiresAt: Option<int>)

  datatype HoldResult =
    | Held(hold: Hold)
    | HoldNotFound
    | HoldNotActive
    | InvalidHoldInput
    | PostingRefused(result: PostResult)

  datatype Outcome = Outcome(book: Book, result: HoldResult)

  function OrINR(currency: string): string
  {
    if currency == "" then "INR" else currency
  }

  // Live holds and the payoutable balance

  predicate Lapsed(h: Hold, now: int)
  {
    h.expiresAt.Some? && h.expiresAt.value <= now
  }

  predicate Live(h: Hold, now: int)
  {
    h.status == Active && !Lapsed(h, now)
  }

  function LiveAmount(merchant: string, a: Account, currency: string, now: int): (string, Hold) -> int
  {
    (id: string, h: Hold) =>
      if h.merchant == merchant && h.account == a && h.currency == currency && Live(h, now) then h.amount else 0
  }

  ghost function Reserved(b: Book, merchant: string, a: Account, currency: string): int
  {
    SumMap(b.holds, LiveAmount(merchant, a, currency, b.now))
  }

  /** What is left of a credit balance once holds are taken off, never negative. */
  function Available(balance: int, reserved: int): int
  {
    var credit := if balance < 0 then -balance else 0;
    if credit - reserved < 0 then 0 else credit - reserved
  }

  ghost function Payoutable(b: Book, merchant: string, currency: string): int
  {
    var c := OrINR(currency);
    Available(BalanceByCurrency(b.txns, merchant, SettlementClearing, c), Reserved(b, merchant, SettlementClearing, c))
  }

  // Operations

  function Create(b: Book, id: string, input: CreateInput): Outcome
  {
    if Blank(input.account) || TrimSpace(input.sourceType) == "" || TrimSpace(input.sourceId) == "" || input.amount <= 0 then
      Outcome(b, InvalidHoldInput)
    else if id in b.holds then Outcome(b, PostingRefused(ConstraintViolation))
    else
      var h := Hold(input.merchant, Trimmed(input.account), OrINR(input.currency), input.amount, Active, input.expiresAt, None);
      Outcome(b.(holds := b.holds[id := h]), Held(h))
  }

  predicate Known(b: Book, merchant: string, id: string)
  {
    id in b.holds && b.holds[id].merchant == merchant
  }

  function WithHold(b: Book, id: string, h: Hold): Outcome
  {
    Outcome(b.(holds := b.holds[id := h]), Held(h))
  }

  function Release(b: Book, merchant: string, id: string): Outcome
  {
    if !Known(b, merchant, id) then Outcome(b, HoldNotFound)
    else match b.holds[id].status
      case Active => WithHold(b, id, b.holds[id].(status := Released))
      case Released => Outcome(b, Held(b.holds[id]))
      case _ => Outcome(b, HoldNotActive)
  }

  function Extend(b: Book, merchant: string, id: string, expiresAt: Option<int>): Outcome
  {
    if !Known(b, merchant, id) then Outcome(b, HoldNotFound)
    else if b.holds[id].status != Active then Outcome(b, HoldNotActive)
    else WithHold(b, id, b.holds[id].(expiresAt := expiresAt))
  }

  function CommitEntries(h: Hold, target: Account): seq<Entry>
  {
    [Entry(h.account, h.amount, 0, h.currency), Entry(target, 0, h.amount, h.currency)]
  }

  function Commit(b: Book, merchant: string, id: string, target: Account): Outcome
  {
    if Blank(target) then Outcome(b, InvalidHoldInput)
    else if !Known(b, merchant, id) then Outcome(b, HoldNotFound)
    else
      var h := b.holds[id];
      match h.status
      case Committed => Outcome(b, Held(h))
      case Active =>
        (match Post(b.txns, merchant, HoldCommit(id), CommitEntries(h, target))
         case Posted(txns) => WithHold(b.(txns := txns), id, h.(status := Committed, target := Some(target)))
         case refusal => Outcome(b, PostingRefused(refusal)))
      case _ => Outcome(b, HoldNotActive)
  }

  function ExpireOne(b: Book, merchant: string, id: string): Outcome
  {
    if !Known(b, merchant, id) then Outcome(b, HoldNotFound)
    else match b.holds[id].status
      case Active => WithHold(b, id, b.holds[id].(status := Expired))
      case Expired => Outcome(b, Held(b.holds[id]))
      case _ => Outcome(b, HoldNotActive)
  }

  predicate IsDue(b: Book, id: string)
  {
    id in b.holds && b.holds[id].status == Active && Lapsed(b.holds[id], b.now)
  }

  /** One sweep over a chosen part of the due holds. */
  function ExpireAll(b: Book, chosen: set<string>): Book
  {
    b.(holds := map id | id in b.holds :: if id in chosen then b.holds[id].(status := Expired) else b.holds[id])
  }

  // Runs

  datatype Step =
    | DoPost(merchant: string, source: Source, entries: seq<Entry>)
    | DoCreate(id: string, input: CreateInput)
    | DoRelease(merchant: string, id: string)
    | DoExtend(merchant: string, id: string, expiresAt: Option<int>)
    | DoCommit(merchant: string, id: string, target: Account)
    | DoExpire(merchant: string, id: string)
    | DoSweep(chosen: set<string>)
    | DoTick(now: int)

  /** One serialised step. The service posts under any source it is given, CommitHold's own included. */
  function Apply(b: Book, s: Step): Book
  {
    match s
    case DoPost(merchant, source, entries) =>
      (match Post(b.txns, merchant, source, entries) case Posted(txns) => b.(txns := txns) case _ => b)
    case DoCreate(id, input) => Create(b, id, input).book
    case DoRelease(merchant, id) => Release(b, merchant, id).book
    case DoExtend(merchant, id, expiresAt) => Extend(b, merchant, id, expiresAt).book
    case DoCommit(merchant, id, target) => Commit(b, merchant, id, target).book
    case DoExpire(merchant, id) => ExpireOne(b, merchant, id).book
    case DoSweep(chosen) => ExpireAll(b, set id | id in chosen && IsDue(b, id))
    case DoTick(now) => if now >= b.now then b.(now := now) else b
  }

  function Exec(b: Book, steps: seq<Step>): Book
  {
    if |steps| == 0 then b else Apply(Exec(b, steps[..|steps| - 1]), steps[|steps| - 1])
  }

  const EMPTY := Book([], map[], 0)

  // What every run keeps

  function CommitTxn(id: string, h: Hold, target: Account): Txn
  {
    MakeTxn(h.merchant, HoldCommit(id), CommitEntries(h, target))
  }

  /** A committed hold has its commit posting. */
  predicate HoldOk(b: Book, id: string)
    requires id in b.holds
  {
    var h := b.holds[id];
    && h.amount > 0 && h.currency != ""
    && (h.status == Committed ==> h.target.Some? && CommitTxn(id, h, h.target.value) in b.txns)
  }

  predicate BookOk(b: Book)
  {
    LedgerOk(b.txns) && forall id :: id in b.holds ==> HoldOk(b, id)
  }

  lemma StepKeepsBookOk(b: Book, s: Step)
    requires BookOk(b)
    ensures BookOk(Apply(b, s))
  {
    match s
    case DoPost(merchant, source, entries) =>
      if Post(b.txns, merchant, source, entries).Posted? {
        PostKeepsLedgerOk(b.txns, merchant, source, entries);
      }
    case DoCommit(merchant, id, target) =>
      if Known(b, merchant, id) && b.holds[id].status == Active {
        CommitKeepsBookOk(b, merchant, id, target);
      }
    case _ =>
  }

  lemma CommitKeepsBookOk(b: Book, merchant: string, id: string, target: Account)
    requires BookOk(b) && Known(b, merchant, id) && b.holds[id].status == Active
    ensures BookOk(Commit(b, merchant, id, target).book)
  {
    var entries := CommitEntries(b.holds[id], target);
    var r := Post(b.txns, merchant, HoldCommit(id), entries);
    if !Blank(target) && r.Posted? {
      PostKeepsLedgerOk(b.txns, merchant, HoldCommit(id), entries);
      var t := MakeTxn(merchant, HoldCommit(id), entries);
      var b' := Commit(b, merchant, id, target).book;
      assert b'.txns == b.txns + [t];
      forall other | other in b'.holds ensures HoldOk(b', other) {
        assert HoldOk(b, other);
        if other == id { assert CommitTxn(id, b'.holds[id], target) == t; }
      }
    }
  }

  lemma {:induction false} RunKeepsBookOk(steps: seq<Step>)
    ensures BookOk(Exec(EMPTY, steps))
  {
    if |steps| > 0 {
      RunKeepsBookOk(steps[..|steps| - 1]);
      StepKeepsBookOk(Exec(EMPTY, steps[..|steps| - 1]), steps[|steps| - 1]);
    }
  }

  // Commits and their postings, exactly

  predicate IsCommitted(b: Book, id: string)
  {
    id in b.holds && b.holds[id].status == Committed
  }

  /** The step posts under the hold's commit source from outside CommitHold. */
  predicate Takes(b: Book, s: Step, id: string)
  {
    s.DoPost? && s.source == HoldCommit(id) && Post(b.txns, s.merchant, s.source, s.entries).Posted?
  }

  predicate Taken(steps: seq<Step>, id: string)
  {
    |steps| > 0 && (Taken(steps[..|steps| - 1], id) || Takes(Exec(EMPTY, steps[..|steps| - 1]), steps[|steps| - 1], id))
  }

  predicate Commits(b: Book, s: Step, id: string)
  {
    && s.DoCommit? && s.id == id && Known(b, s.merchant, id) && b.holds[id].status == Active
    && Commit(b, s.merchant, id, s.target).result.Held?
  }

  /** A step that commits the hold or takes its source finds the source free. */
  lemma StepUsesSource(b: Book, s: Step, id: string)
    ensures IsCommitted(Apply(b, s), id) <==> IsCommitted(b, id) || Commits(b, s, id)
    ensures SourceUsed(Apply(b, s).txns, HoldCommit(id))
            <==> SourceUsed(b.txns, HoldCommit(id)) || Commits(b, s, id) || Takes(b, s, id)
    ensures Commits(b, s, id) || Takes(b, s, id) ==> !SourceUsed(b.txns, HoldCommit(id))
  {
    match s
    case DoPost(merchant, source, entries) => UsedAfterAppend(b.txns, MakeTxn(merchant, source, entries), HoldCommit(id));
    case DoCommit(merchant, k, target) =>
      if Known(b, merchant, k) {
        UsedAfterAppend(b.txns, MakeTxn(merchant, HoldCommit(k), CommitEntries(b.holds[k], target)), HoldCommit(id));
      }
    case _ =>
  }

  /** In every run a hold's commit source is used by its commit or by somebody else, never both. */
  lemma {:induction false} SourceUsedIff(steps: seq<Step>, id: string)
    ensures var b := Exec(EMPTY, steps);
            && (SourceUsed(b.txns, HoldCommit(id)) <==> IsCommitted(b, id) || Taken(steps, id))
            && !(IsCommitted(b, id) && Taken(steps, id))
  {
    if |steps| > 0 {
      SourceUsedIff(steps[..|steps| - 1], id);
      StepUsesSource(Exec(EMPTY, steps[..|steps| - 1]), steps[|steps| - 1], id);
    }
  }

  /** In every run a merchant's balances sum to zero, and a hold is committed exactly when one
      ledger_hold_commit posting exists for it if and only if nobody but CommitHold has posted
      under that source. */
  lemma ReachableLedger(steps: seq<Step>, merchant: string, id: string)
    ensures var b := Exec(EMPTY, steps);
            && SumSeq(CONFIGURED, Balances(b.txns, merchant)) == 0
            && ((IsCommitted(b, id) <==> CountSource(b.txns, HoldCommit(id)) == 1) <==> !Taken(steps, id))
            && CountSource(b.txns, HoldCommit(id)) == (if IsCommitted(b, id) || Taken(steps, id) then 1 else 0)
  {
    var b := Exec(EMPTY, steps);
    RunKeepsBookOk(steps);
    AllBalancesSumToZero(b.txns, merchant);
    SourceUsedIff(steps, id);
    CountIsOneIffUsed(b.txns, HoldCommit(id));
  }

  /** A hold whose source somebody else has taken is never committed, whatever follows. */
  lemma {:induction false} TakenIsNeverCommitted(steps: seq<Step>, more: seq<Step>, id: string)
    requires Taken(steps, id)
    ensures Taken(steps + more, id) && !IsCommitted(Exec(EMPTY, steps + more), id)
  {
    if |more| == 0 {
      assert steps + more == steps;
    } else {
      TakenIsNeverCommitted(steps, more[..|more| - 1], id);
      assert (steps + more)[..|steps + more| - 1] == steps + more[..|more| - 1];
    }
    SourceUsedIff(steps + more, id);
  }

  /** Such a posting goes through: here for the one hold of a merchant, while it is active. */
  lemma OutsidePostingTakesSource(id: string, input: CreateInput)
    requires Create(EMPTY, id, input).result.Held?
    ensures var entries := [Entry(MerchantPayable, 1, 0, ""), Entry(RefundClearing, 0, 1, "")];
            var steps := [DoCreate(id, input), DoPost(input.merchant, Source("ledger_hold_commit", id), entries)];
            var b := Exec(EMPTY, steps);
            && id in b.holds && b.holds[id].status == Active
            && CountSource(b.txns, HoldCommit(id)) == 1 && Taken(steps, id)
  {
    var debit, credit := Entry(MerchantPayable, 1, 0, ""), Entry(RefundClearing, 0, 1, "");
    var create, post := DoCreate(id, input), DoPost(input.merchant, HoldCommit(id), [debit, credit]);
    SumPair(debit, credit, (e: Entry) => e.debit);
    SumPair(debit, credit, (e: Entry) => e.credit);
    var b := Apply(EMPTY, create);
    assert Post(b.txns, input.merchant, HoldCommit(id), [debit, credit]).Posted?;
    assert [create, post][..1] == [create] && [create][..0] == [];
    assert Exec(EMPTY, [create]) == b;
    assert Takes(b, post, id);
    ReachableLedger([create, post], input.merchant, id);
  }

  /** Released, committed and expired rows never change again. */
  lemma {:induction false} FinalStatusesAbsorb(b: Book, steps: seq<Step>, id: string)
    requires id in b.holds && b.holds[id].status != Active
    ensures id in Exec(b, steps).holds && Exec(b, steps).holds[id] == b.holds[id]
  {
    if |steps| > 0 {
      FinalStatusesAbsorb(b, steps[..|steps| - 1], id);
    }
  }

  // Currencies

  /** Whether the step appends a posting of its own; a commit's posting is in the hold's currency. */
  predicate Posts(b: Book, s: Step)
  {
    s.DoPost? && Post(b.txns, s.merchant, s.source, s.entries).Posted?
  }

  /** What the step posts cancels in each currency. */
  ghost predicate PostsCancelling(b: Book, s: Step)
  {
    Posts(b, s) ==> CancelsPerCurrency(MakeTxn(s.merchant, s.source, s.entries).lines)
  }

  ghost predicate CancellingRun(steps: seq<Step>)
  {
    |steps| > 0 ==>
      CancellingRun(steps[..|steps| - 1]) && PostsCancelling(Exec(EMPTY, steps[..|steps| - 1]), steps[|steps| - 1])
  }

  /** Every currency balances at every point of the run. */
  ghost predicate BalancedRun(steps: seq<Step>)
  {
    CurrenciesBalance(Exec(EMPTY, steps).txns) && (|steps| > 0 ==> BalancedRun(steps[..|steps| - 1]))
  }

  lemma CommitCancels(b: Book, merchant: string, id: string, target: Account)
    requires BookOk(b) && Known(b, merchant, id) && b.holds[id].status == Active
    ensures CancelsPerCurrency(MakeTxn(merchant, HoldCommit(id), CommitEntries(b.holds[id], target)).lines)
  {
    var entries := CommitEntries(b.holds[id], target);
    var lines := MakeTxn(merchant, HoldCommit(id), entries).lines;
    assert HoldOk(b, id);
    assert lines == entries;
    forall currency ensures LinesNet(lines, InCurrency(currency)) == 0 {
      SumPair(entries[0], entries[1], NetOf(InCurrency(currency)));
    }
  }

  lemma StepBalancesIff(b: Book, s: Step)
    requires BookOk(b) && CurrenciesBalance(b.txns)
    ensures CurrenciesBalance(Apply(b, s).txns) <==> PostsCancelling(b, s)
  {
    if Posts(b, s) {
      PostingBalancesIff(b.txns, MakeTxn(s.merchant, s.source, s.entries));
    } else if s.DoCommit? && Known(b, s.merchant, s.id) && b.holds[s.id].status == Active {
      CommitCancels(b, s.merchant, s.id, s.target);
      PostingBalancesIff(b.txns, MakeTxn(s.merchant, HoldCommit(s.id), CommitEntries(b.holds[s.id], s.target)));
    }
  }

  /** Every merchant nets to zero in every currency at every point of a run exactly when what
      each posting step appends cancels in each currency. */
  lemma {:induction false} CurrenciesBalancedIff(steps: seq<Step>)
    ensures BalancedRun(steps) <==> CancellingRun(steps)
  {
    if |steps| == 0 {
      assert CurrenciesBalance([]);
    } else {
      var init := steps[..|steps| - 1];
      CurrenciesBalancedIff(init);
      RunKeepsBookOk(init);
      if BalancedRun(init) {
        StepBalancesIff(Exec(EMPTY, init), steps[|steps| - 1]);
      }
    }
  }

  /** In particular when every posting names at most one currency. */
  lemma RunKeepsCurrenciesBalanced(steps: seq<Step>, merchant: string, currency: string)
    requires forall i :: 0 <= i < |steps| && steps[i].DoPost? ==> NamesOneCurrency(steps[i].entries)
    ensures forall i :: 0 <= i < |Exec(EMPTY, steps).txns| ==> SingleCurrency(Exec(EMPTY, steps).txns[i])
    ensures Net(Exec(EMPTY, steps).txns, merchant, InCurrency(currency)) == 0
  {
    PostingsStayInOneCurrency(steps);
    OneCurrencyRunCancels(steps);
    CurrenciesBalancedIff(steps);
  }

  lemma {:induction false} OneCurrencyRunCancels(steps: seq<Step>)
    requires forall i :: 0 <= i < |steps| && steps[i].DoPost? ==> NamesOneCurrency(steps[i].entries)
    ensures CancellingRun(steps)
  {
    if |steps| > 0 {
      var b, s := Exec(EMPTY, steps[..|steps| - 1]), steps[|steps| - 1];
      OneCurrencyRunCancels(steps[..|steps| - 1]);
      RunKeepsBookOk(steps[..|steps| - 1]);
      if Posts(b, s) {
        OneCurrencyCancels(b.txns, s.merchant, s.source, s.entries);
      }
    }
  }

  lemma {:induction false} PostingsStayInOneCurrency(steps: seq<Step>)
    requires forall i :: 0 <= i < |steps| && steps[i].DoPost? ==> NamesOneCurrency(steps[i].entries)
    ensures forall i :: 0 <= i < |Exec(EMPTY, steps).txns| ==> SingleCurrency(Exec(EMPTY, steps).txns[i])
  {
    if |steps| > 0 {
      var b, s := Exec(EMPTY, steps[..|steps| - 1]), steps[|steps| - 1];
      PostingsStayInOneCurrency(steps[..|steps| - 1]);
      if s.DoPost? {
        OneCurrencyIsStored(s.merchant, s.source, s.entries);
      } else if s.DoCommit? && Known(b, s.merchant, s.id) {
        OneCurrencyIsStored(s.merchant, HoldCommit(s.id), CommitEntries(b.holds[s.id], s.target));
      }
    }
  }

  lemma OneCurrencyCancels(txns: seq<Txn>, merchant: string, source: Source, entries: seq<Entry>)
    requires LedgerOk(txns) && NamesOneCurrency(entries) && Post(txns, merchant, source, entries).Posted?
    ensures CancelsPerCurrency(MakeTxn(merchant, source, entries).lines)
  {
    OneCurrencyIsStored(merchant, source, entries);
    PostKeepsLedgerOk(txns, merchant, source, entries);
    var t := MakeTxn(merchant, source, entries);
    assert (txns + [t])[|txns|] == t;
    SingleCurrencyCancels(t);
  }
}
