/** What holds on SETTLEMENT_CLEARING guarantee about the payoutable balance. */
module Payout {
  import opened Common
  import opened Ledger
  import opened Holds

  ghost function Clearing(b: Book, merchant: string, currency: string): int
  {
    BalanceByCurrency(b.txns, merchant, SettlementClearing, currency)
  }

  ghost function ClearingReserved(b: Book, merchant: string, currency: string): int
  {
    Reserved(b, merchant, SettlementClearing, currency)
  }

  /** GetPayoutableBalance at least the amount: the check CanReserveForPayout makes. */
  ghost predicate CanReserve(b: Book, merchant: string, currency: string, amount: int)
  {
    amount <= Payoutable(b, merchant, currency)
  }

  // How one operation moves the two figures

  lemma CommitLinesNet(merchant: string, id: string, h: Hold, target: Account, c: string)
    requires h.currency != ""
    ensures LinesNet(MakeTxn(merchant, HoldCommit(id), CommitEntries(h, target)).lines, OnAccountIn(SettlementClearing, c))
            == (if c == h.currency && h.account == SettlementClearing then h.amount else 0)
             - (if c == h.currency && target == SettlementClearing then h.amount else 0)
  {
    var entries := CommitEntries(h, target);
    assert MakeTxn(merchant, HoldCommit(id), entries).lines == entries;
    SumPair(entries[0], entries[1], NetOf(OnAccountIn(SettlementClearing, c)));
  }

  lemma CommitAppends(b: Book, merchant: string, id: string, target: Account) returns (t: Txn)
    requires Known(b, merchant, id) && b.holds[id].status == Active && Commit(b, merchant, id, target).result.Held?
    ensures t == MakeTxn(merchant, HoldCommit(id), CommitEntries(b.holds[id], target)) && t.merchant == merchant
    ensures Commit(b, merchant, id, target).book.txns == b.txns + [t]
  {
    t := MakeTxn(merchant, HoldCommit(id), CommitEntries(b.holds[id], target));
  }

  /** A commit debits the held account and credits the target, in the hold's currency only. */
  lemma CommitMovesClearing(b: Book, merchant: string, id: string, target: Account, m: string, c: string)
    requires BookOk(b) && Known(b, merchant, id) && b.holds[id].status == Active
    requires Commit(b, merchant, id, target).result.Held?
    ensures var h := b.holds[id];
            Clearing(Commit(b, merchant, id, target).book, m, c) == Clearing(b, m, c)
              + (if m == merchant && c == h.currency && h.account == SettlementClearing then h.amount else 0)
              - (if m == merchant && c == h.currency && target == SettlementClearing then h.amount else 0)
  {
    assert HoldOk(b, id);
    var t := CommitAppends(b, merchant, id, target);
    CommitLinesNet(merchant, id, b.holds[id], target, c);
    SumAppend(b.txns, t, TxnNet(m, OnAccountIn(SettlementClearing, c)));
  }

  /** A change of one row moves the reserved figure by what that row weighed before and after. */
  lemma RowMovesReserved(b: Book, id: string, h: Hold, m: string, c: string)
    requires id in b.holds
    ensures var w := LiveAmount(m, SettlementClearing, c, b.now);
            SumMap(b.holds[id := h], w) == ClearingReserved(b, m, c) - w(id, b.holds[id]) + w(id, h)
  {
    SumMapUpdate(b.holds, id, h, LiveAmount(m, SettlementClearing, c, b.now));
  }

  lemma ReservedCovers(b: Book, m: string, c: string, id: string)
    requires BookOk(b) && id in b.holds
    ensures 0 <= LiveAmount(m, SettlementClearing, c, b.now)(id, b.holds[id]) <= ClearingReserved(b, m, c)
  {
    forall k | k in b.holds ensures LiveAmount(m, SettlementClearing, c, b.now)(k, b.holds[k]) >= 0 {
      assert HoldOk(b, k);
    }
    SumMapNonnegative(b.holds, LiveAmount(m, SettlementClearing, c, b.now));
  }

  lemma ReservedNonnegative(b: Book, m: string, c: string)
    requires BookOk(b)
    ensures ClearingReserved(b, m, c) >= 0
  {
    forall k | k in b.holds ensures LiveAmount(m, SettlementClearing, c, b.now)(k, b.holds[k]) >= 0 {
      assert HoldOk(b, k);
    }
    SumMapNonnegative(b.holds, LiveAmount(m, SettlementClearing, c, b.now));
  }

  // Commit, release, sweep

  lemma CommitPostsIff(txns: seq<Txn>, merchant: string, id: string, h: Hold, target: Account)
    requires h.amount > 0
    ensures Post(txns, merchant, HoldCommit(id), CommitEntries(h, target)).Posted?
            <==> h.account in CONFIGURED && target in CONFIGURED && !SourceUsed(txns, HoldCommit(id))
  {
    var entries := CommitEntries(h, target);
    SumPair(entries[0], entries[1], (e: Entry) => e.debit);
    SumPair(entries[0], entries[1], (e: Entry) => e.credit);
    assert entries[0].account == h.account && entries[1].account == target;
  }

  /** An active hold commits exactly when both accounts are configured and nobody else has
      posted under its commit source. */
  lemma CommitSucceedsIff(b: Book, merchant: string, id: string, target: Account)
    requires BookOk(b) && Known(b, merchant, id) && b.holds[id].status == Active
    ensures Commit(b, merchant, id, target).result.Held?
            <==> b.holds[id].account in CONFIGURED && target in CONFIGURED && !SourceUsed(b.txns, HoldCommit(id))
  {
    assert HoldOk(b, id);
    CommitPostsIff(b.txns, merchant, id, b.holds[id], target);
  }

  /** A commit takes what the hold weighed off the reserved figure. */
  lemma CommitMovesReserved(b: Book, merchant: string, id: string, target: Account, m: string, c: string)
    requires BookOk(b) && Known(b, merchant, id) && b.holds[id].status == Active
    requires Commit(b, merchant, id, target).result.Held?
    ensures var taken := LiveAmount(m, SettlementClearing, c, b.now)(id, b.holds[id]);
            && 0 <= taken <= ClearingReserved(b, m, c)
            && ClearingReserved(Commit(b, merchant, id, target).book, m, c) == ClearingReserved(b, m, c) - taken
  {
    RowMovesReserved(b, id, Commit(b, merchant, id, target).book.holds[id], m, c);
    ReservedCovers(b, m, c, id);
  }

  /** Moving a reserved amount into the balance changes nothing, in every clamp case. */
  lemma ClampAbsorbs(balance: int, reserved: int, amount: int)
    requires 0 <= amount <= reserved
    ensures Available(balance + amount, reserved - amount) == Available(balance, reserved)
  {
  }

  /** Committing an unlapsed hold to another account leaves every payoutable balance
      as it was, whichever way the two clamps fall. */
  lemma CommitKeepsPayoutable(b: Book, merchant: string, id: string, target: Account, m: string, currency: string)
    requires BookOk(b) && Known(b, merchant, id) && Live(b.holds[id], b.now)
    requires b.holds[id].account == SettlementClearing && target != SettlementClearing
    requires Commit(b, merchant, id, target).result.Held?
    ensures Payoutable(Commit(b, merchant, id, target).book, m, currency) == Payoutable(b, m, currency)
  {
    var c := OrINR(currency);
    CommitMovesClearing(b, merchant, id, target, m, c);
    CommitMovesReserved(b, merchant, id, target, m, c);
    ClampAbsorbs(Clearing(b, m, c), ClearingReserved(b, m, c), LiveAmount(m, SettlementClearing, c, b.now)(id, b.holds[id]));
  }

  /** Both figures after a commit, whatever became of the hold's lease. */
  lemma CommitFigures(b: Book, merchant: string, id: string, target: Account, m: string, c: string) returns (b': Book)
    requires BookOk(b) && Known(b, merchant, id) && b.holds[id].status == Active
    requires Commit(b, merchant, id, target).result.Held?
    ensures b' == Commit(b, merchant, id, target).book && b.holds[id].amount > 0
    ensures Clearing(b', m, c) == Clearing(b, m, c)
              + (if m == merchant && c == b.holds[id].currency && b.holds[id].account == SettlementClearing then b.holds[id].amount else 0)
              - (if m == merchant && c == b.holds[id].currency && target == SettlementClearing then b.holds[id].amount else 0)
    ensures ClearingReserved(b', m, c) == ClearingReserved(b, m, c) - LiveAmount(m, SettlementClearing, c, b.now)(id, b.holds[id])
  {
    b' := Commit(b, merchant, id, target).book;
    assert HoldOk(b, id);
    CommitMovesClearing(b, merchant, id, target, m, c);
    CommitMovesReserved(b, merchant, id, target, m, c);
  }

  lemma ReleaseFigures(b: Book, merchant: string, id: string, m: string, c: string) returns (b': Book)
    requires Known(b, merchant, id) && b.holds[id].status == Active
    ensures b' == Release(b, merchant, id).book && Clearing(b', m, c) == Clearing(b, m, c)
    ensures ClearingReserved(b', m, c) == ClearingReserved(b, m, c) - LiveAmount(m, SettlementClearing, c, b.now)(id, b.holds[id])
  {
    b' := Release(b, merchant, id).book;
    RowMovesReserved(b, id, b'.holds[id], m, c);
  }

  lemma SameFigures(b: Book, b': Book, m: string, currency: string)
    requires Clearing(b, m, OrINR(currency)) == Clearing(b', m, OrINR(currency))
    requires ClearingReserved(b, m, OrINR(currency)) == ClearingReserved(b', m, OrINR(currency))
    ensures Payoutable(b, m, currency) == Payoutable(b', m, currency)
  {
  }

  /** Committing back to SETTLEMENT_CLEARING itself is a release in disguise. */
  lemma CommitToItselfReleases(b: Book, merchant: string, id: string, m: string, currency: string)
    requires BookOk(b) && Known(b, merchant, id) && b.holds[id].status == Active
    requires b.holds[id].account == SettlementClearing
    requires Commit(b, merchant, id, SettlementClearing).result.Held?
    ensures Payoutable(Commit(b, merchant, id, SettlementClearing).book, m, currency)
            == Payoutable(Release(b, merchant, id).book, m, currency)
  {
    var committed := CommitFigures(b, merchant, id, SettlementClearing, m, OrINR(currency));
    var released := ReleaseFigures(b, merchant, id, m, OrINR(currency));
    SameFigures(committed, released, m, currency);
  }

  lemma DebitDropsPayoutable(b: Book, b': Book, m: string, c: string, amount: int)
    requires c != "" && amount > 0 && ClearingReserved(b, m, c) >= 0
    requires Clearing(b', m, c) == Clearing(b, m, c) + amount && ClearingReserved(b', m, c) == ClearingReserved(b, m, c)
    ensures var before := Payoutable(b, m, c);
            Payoutable(b', m, c) == if before < amount then 0 else before - amount
  {
  }

  /** Committing a lapsed hold takes its whole amount off a merchant who has that much to pay out. */
  lemma LapsedCommitDropsPayoutable(b: Book, merchant: string, id: string, target: Account)
    requires BookOk(b) && Known(b, merchant, id) && b.holds[id].status == Active && Lapsed(b.holds[id], b.now)
    requires b.holds[id].account == SettlementClearing && target != SettlementClearing
    requires Commit(b, merchant, id, target).result.Held?
    ensures var h := b.holds[id];
            var before := Payoutable(b, merchant, h.currency);
            Payoutable(Commit(b, merchant, id, target).book, merchant, h.currency)
            == if before < h.amount then 0 else before - h.amount
  {
    var h := b.holds[id];
    assert HoldOk(b, id);
    var b' := CommitFigures(b, merchant, id, target, merchant, h.currency);
    ReservedNonnegative(b, merchant, h.currency);
    DebitDropsPayoutable(b, b', merchant, h.currency, h.amount);
  }

  /** Releasing raises the payoutable balance by at most the held amount and never lowers it. */
  lemma ReleaseRaisesAtMostAmount(b: Book, merchant: string, id: string, m: string, currency: string)
    requires BookOk(b) && Known(b, merchant, id) && b.holds[id].status == Active
    ensures 0 <= Payoutable(Release(b, merchant, id).book, m, currency) - Payoutable(b, m, currency) <= b.holds[id].amount
  {
    RowMovesReserved(b, id, Release(b, merchant, id).book.holds[id], m, OrINR(currency));
    ReservedCovers(b, m, OrINR(currency), id);
    assert HoldOk(b, id);
  }

  // With and without sweeps

  predicate Spent(h: Hold, now: int)
  {
    h.status != Active || Lapsed(h, now)
  }

  /** Two books that differ only in how some holds that can never count again are marked: the
      second has closed them. */
  predicate Alike(b: Book, b': Book, marked: set<string>)
  {
    && b'.txns == b.txns && b'.now == b.now && b'.holds.Keys == b.holds.Keys
    && forall id :: id in b.holds ==>
         || b'.holds[id] == b.holds[id]
         || (id in marked && Spent(b.holds[id], b.now) && b'.holds[id].status != Active)
  }

  /** Neither extends nor commits a marked hold that is due. */
  predicate Spares(b: Book, s: Step, marked: set<string>)
  {
    s.DoExtend? || s.DoCommit? ==> s.id !in marked || !IsDue(b, s.id)
  }

  lemma AlikePayoutable(b: Book, b': Book, marked: set<string>, m: string, currency: string)
    requires Alike(b, b', marked)
    ensures Payoutable(b', m, currency) == Payoutable(b, m, currency)
  {
    SumMapCongruent(b'.holds, b.holds, LiveAmount(m, SettlementClearing, OrINR(currency), b.now));
  }

  lemma AlikeCommit(b: Book, b': Book, marked: set<string>, s: Step)
    requires Alike(b, b', marked) && s.DoCommit? && Spares(b, s, marked)
    ensures Alike(Apply(b, s), Apply(b', s), marked)
  {
  }

  lemma AlikeExtend(b: Book, b': Book, marked: set<string>, s: Step)
    requires Alike(b, b', marked) && s.DoExtend? && Spares(b, s, marked)
    ensures Alike(Apply(b, s), Apply(b', s), marked)
  {
  }

  lemma AlikeRelease(b: Book, b': Book, marked: set<string>, s: Step)
    requires Alike(b, b', marked) && s.DoRelease?
    ensures Alike(Apply(b, s), Apply(b', s), marked)
  {
  }

  lemma AlikeExpire(b: Book, b': Book, marked: set<string>, s: Step)
    requires Alike(b, b', marked) && s.DoExpire?
    ensures Alike(Apply(b, s), Apply(b', s), marked)
  {
  }

  lemma AlikeStep(b: Book, b': Book, marked: set<string>, s: Step)
    requires Alike(b, b', marked) && Spares(b, s, marked)
    ensures Alike(Apply(b, s), Apply(b', s), marked)
  {
    match s
    case DoCommit(_, _, _) => AlikeCommit(b, b', marked, s);
    case DoExtend(_, _, _) => AlikeExtend(b, b', marked, s);
    case DoRelease(_, _) => AlikeRelease(b, b', marked, s);
    case DoExpire(_, _) => AlikeExpire(b, b', marked, s);
    case _ =>
  }

  /** A sweep on one side only marks what it closes. */
  lemma AlikeSweep(b: Book, b': Book, marked: set<string>, chosen: set<string>)
    requires Alike(b, b', marked)
    ensures Alike(b, Apply(b', DoSweep(chosen)), marked + chosen)
  {
  }

  /** The run without its sweeps. */
  function Unswept(steps: seq<Step>): seq<Step>
  {
    if |steps| == 0 then []
    else
      var init := Unswept(steps[..|steps| - 1]);
      if steps[|steps| - 1].DoSweep? then init else init + [steps[|steps| - 1]]
  }

  /** Without the sweeps, no hold is extended or committed once it is due. */
  predicate SparesDue(b: Book, steps: seq<Step>)
  {
    |steps| > 0 ==>
      var s := steps[|steps| - 1];
      && SparesDue(b, steps[..|steps| - 1])
      && (s.DoExtend? || s.DoCommit? ==> !IsDue(Exec(b, Unswept(steps[..|steps| - 1])), s.id))
  }

  lemma ExecSnoc(b: Book, steps: seq<Step>, s: Step)
    ensures Exec(b, steps + [s]) == Apply(Exec(b, steps), s)
  {
    assert (steps + [s])[..|steps|] == steps;
  }

  lemma {:induction false} UnsweptIsAlike(b: Book, steps: seq<Step>) returns (marked: set<string>)
    requires SparesDue(b, steps)
    ensures Alike(Exec(b, Unswept(steps)), Exec(b, steps), marked)
  {
    marked := {};
    if |steps| > 0 {
      var init, s := steps[..|steps| - 1], steps[|steps| - 1];
      marked := UnsweptIsAlike(b, init);
      if s.DoSweep? {
        AlikeSweep(Exec(b, Unswept(init)), Exec(b, init), marked, s.chosen);
        marked := marked + s.chosen;
      } else {
        ExecSnoc(b, Unswept(init), s);
        AlikeStep(Exec(b, Unswept(init)), Exec(b, init), marked, s);
      }
    }
  }

  /** Sweeps are invisible: a run with all its sweeps taken out ends with the same payoutable
      balances, as long as no due hold is extended or committed in it. */
  lemma SweepsAreInvisible(b: Book, steps: seq<Step>, m: string, currency: string)
    requires SparesDue(b, steps)
    ensures Payoutable(Exec(b, steps), m, currency) == Payoutable(Exec(b, Unswept(steps)), m, currency)
  {
    var marked := UnsweptIsAlike(b, steps);
    AlikePayoutable(Exec(b, Unswept(steps)), Exec(b, steps), marked, m, currency);
  }

  lemma {:induction false} AlikeRun(b: Book, b': Book, marked: set<string>, steps: seq<Step>)
    requires Alike(b, b', marked)
    requires forall i :: 0 <= i < |steps| && (steps[i].DoExtend? || steps[i].DoCommit?) ==> steps[i].id !in marked
    ensures Alike(Exec(b, steps), Exec(b', steps), marked)
  {
    if |steps| > 0 {
      AlikeRun(b, b', marked, steps[..|steps| - 1]);
      AlikeStep(Exec(b, steps[..|steps| - 1]), Exec(b', steps[..|steps| - 1]), marked, steps[|steps| - 1]);
    }
  }

  /** One sweep of due holds changes no payoutable balance after any later run, further sweeps
      included, as long as none of the swept holds is extended or committed in it. */
  lemma SweepIsInvisible(b: Book, chosen: set<string>, steps: seq<Step>, m: string, currency: string)
    requires forall i :: 0 <= i < |steps| && (steps[i].DoExtend? || steps[i].DoCommit?) ==> steps[i].id !in chosen
    ensures Payoutable(Exec(Apply(b, DoSweep(chosen)), steps), m, currency) == Payoutable(Exec(b, steps), m, currency)
  {
    AlikeSweep(b, b, {}, chosen);
    assert {} + chosen == chosen;
    AlikeRun(b, Apply(b, DoSweep(chosen)), chosen, steps);
    AlikePayoutable(Exec(b, steps), Exec(Apply(b, DoSweep(chosen)), steps), chosen, m, currency);
  }

  /** An extension does show the sweep: the hold comes back to life only where it was not swept. */
  lemma ExtensionShowsSweep(b: Book, id: string, until: Option<int>)
    requires IsDue(b, id) && b.holds[id].account == SettlementClearing && (until.Some? ==> until.value > b.now)
    ensures var h := b.holds[id];
            ClearingReserved(Extend(b, h.merchant, id, until).book, h.merchant, h.currency)
            == ClearingReserved(Extend(ExpireAll(b, {id}), h.merchant, id, until).book, h.merchant, h.currency) + h.amount
  {
    var h := b.holds[id];
    RowMovesReserved(b, id, h.(expiresAt := until), h.merchant, h.currency);
    SumMapCongruent(ExpireAll(b, {id}).holds, b.holds, LiveAmount(h.merchant, SettlementClearing, h.currency, b.now));
  }

  // Reserve before holding: the account never goes into debit

  /** Live holds never exceed the credit balance they are taken from. */
  ghost predicate Covered(b: Book, m: string, c: string)
  {
    ClearingReserved(b, m, c) <= -Clearing(b, m, c)
  }

  ghost predicate AllCovered(b: Book)
  {
    forall m, c :: Covered(b, m, c)
  }

  /** What is left of the credit balance beside the live holds; negative when not covered. */
  ghost function Headroom(b: Book, m: string, c: string): int
  {
    -Clearing(b, m, c) - ClearingReserved(b, m, c)
  }

  /** A hold on the account that stopped counting and could count again. */
  predicate DueOn(b: Book, id: string, m: string, c: string)
  {
    && IsDue(b, id) && b.holds[id].merchant == m && b.holds[id].currency == c
    && b.holds[id].account == SettlementClearing
  }

  /** What a step asks of the account: a posting its net debit, a new or revived live hold its
      amount, the commit of a lapsed hold to another account its amount, any other step nothing. */
  function Draw(b: Book, s: Step, m: string, c: string): int
  {
    match s
    case DoPost(merchant, source, entries) =>
      if merchant == m && Post(b.txns, merchant, source, entries).Posted?
      then LinesNet(MakeTxn(merchant, source, entries).lines, OnAccountIn(SettlementClearing, c)) else 0
    case DoCreate(id, input) =>
      if input.merchant == m && OrINR(input.currency) == c && Trimmed(input.account) == SettlementClearing
         && Create(b, id, input).result.Held? && !(input.expiresAt.Some? && input.expiresAt.value <= b.now)
      then input.amount else 0
    case DoExtend(merchant, id, until) =>
      if merchant == m && DueOn(b, id, m, c) && !(until.Some? && until.value <= b.now) then b.holds[id].amount else 0
    case DoCommit(merchant, id, target) =>
      if merchant == m && DueOn(b, id, m, c) && target != SettlementClearing && Commits(b, s, id)
      then b.holds[id].amount else 0
    case _ => 0
  }

  lemma PostDraws(b: Book, s: Step, m: string, c: string)
    requires s.DoPost?
    ensures Headroom(Apply(b, s), m, c) == Headroom(b, m, c) - Draw(b, s, m, c)
  {
    if Post(b.txns, s.merchant, s.source, s.entries).Posted? {
      SumAppend(b.txns, MakeTxn(s.merchant, s.source, s.entries), TxnNet(m, OnAccountIn(SettlementClearing, c)));
    }
  }

  lemma CreateDraws(b: Book, s: Step, m: string, c: string)
    requires s.DoCreate?
    ensures Headroom(Apply(b, s), m, c) == Headroom(b, m, c) - Draw(b, s, m, c)
  {
    if Create(b, s.id, s.input).result.Held? {
      SumMapInsert(b.holds, s.id, Create(b, s.id, s.input).result.hold, LiveAmount(m, SettlementClearing, c, b.now));
    }
  }

  /** A step that draws nothing leaves at least the headroom there was; one that draws takes exactly that. */
  ghost predicate DrawsFrom(b: Book, b': Book, m: string, c: string, draw: int)
  {
    if draw == 0 then Headroom(b', m, c) >= Headroom(b, m, c) else Headroom(b', m, c) == Headroom(b, m, c) - draw
  }

  lemma RowDraws(b: Book, id: string, h: Hold, m: string, c: string)
    requires id in b.holds
    ensures var w := LiveAmount(m, SettlementClearing, c, b.now);
            Headroom(b.(holds := b.holds[id := h]), m, c) == Headroom(b, m, c) + w(id, b.holds[id]) - w(id, h)
  {
    RowMovesReserved(b, id, h, m, c);
  }

  lemma ExtendDraws(b: Book, s: Step, m: string, c: string)
    requires BookOk(b) && s.DoExtend?
    ensures DrawsFrom(b, Apply(b, s), m, c, Draw(b, s, m, c))
  {
    if Known(b, s.merchant, s.id) && b.holds[s.id].status == Active {
      assert HoldOk(b, s.id);
      RowDraws(b, s.id, b.holds[s.id].(expiresAt := s.expiresAt), m, c);
    }
  }

  lemma CloseDraws(b: Book, s: Step, m: string, c: string)
    requires BookOk(b) && (s.DoRelease? || s.DoExpire?)
    ensures Headroom(Apply(b, s), m, c) >= Headroom(b, m, c)
  {
    if Known(b, s.merchant, s.id) && b.holds[s.id].status == Active {
      assert HoldOk(b, s.id);
      RowDraws(b, s.id, b.holds[s.id].(status := if s.DoRelease? then Released else Expired), m, c);
    }
  }

  lemma CommitDraws(b: Book, s: Step, m: string, c: string)
    requires BookOk(b) && s.DoCommit?
    ensures DrawsFrom(b, Apply(b, s), m, c, Draw(b, s, m, c))
  {
    if Commits(b, s, s.id) {
      var b' := CommitFigures(b, s.merchant, s.id, s.target, m, c);
    }
  }

  lemma TickDraws(b: Book, now: int, m: string, c: string)
    requires BookOk(b) && now >= b.now
    ensures Headroom(b.(now := now), m, c) >= Headroom(b, m, c)
  {
    forall k | k in b.holds
      ensures LiveAmount(m, SettlementClearing, c, now)(k, b.holds[k])
              <= LiveAmount(m, SettlementClearing, c, b.now)(k, b.holds[k])
    {
      assert HoldOk(b, k);
    }
    SumMapMonotone(b.holds, LiveAmount(m, SettlementClearing, c, now), LiveAmount(m, SettlementClearing, c, b.now));
  }

  lemma SweepDraws(b: Book, chosen: set<string>, m: string, c: string)
    ensures Headroom(Apply(b, DoSweep(chosen)), m, c) == Headroom(b, m, c)
  {
    SumMapCongruent(Apply(b, DoSweep(chosen)).holds, b.holds, LiveAmount(m, SettlementClearing, c, b.now));
  }

  lemma StepDraws(b: Book, s: Step, m: string, c: string)
    requires BookOk(b)
    ensures DrawsFrom(b, Apply(b, s), m, c, Draw(b, s, m, c))
  {
    match s
    case DoPost(_, _, _) => PostDraws(b, s, m, c);
    case DoCreate(_, _) => CreateDraws(b, s, m, c);
    case DoExtend(_, _, _) => ExtendDraws(b, s, m, c);
    case DoCommit(_, _, _) => CommitDraws(b, s, m, c);
    case DoTick(now) => if now >= b.now { TickDraws(b, now, m, c); }
    case DoSweep(chosen) => SweepDraws(b, chosen, m, c);
    case _ => CloseDraws(b, s, m, c);
  }

  /** Nothing is drawn in a currency without a name. */
  lemma NoNamelessDraw(b: Book, s: Step, m: string)
    requires BookOk(b)
    ensures Draw(b, s, m, "") == 0
  {
    match s
    case DoPost(merchant, source, entries) =>
      var t := MakeTxn(merchant, source, entries);
      forall e | e in t.lines ensures NetOf(OnAccountIn(SettlementClearing, ""))(e) == 0 {
        LinesNameCurrency(entries);
      }
      SumZero(t.lines, NetOf(OnAccountIn(SettlementClearing, "")));
    case DoExtend(_, id, _) => if id in b.holds { assert HoldOk(b, id); }
    case DoCommit(_, id, _) => if id in b.holds { assert HoldOk(b, id); }
    case _ =>
  }

  lemma {:induction false} LinesNameCurrency(entries: seq<Entry>)
    ensures PostingCurrency(entries) != ""
    ensures forall e :: e in Stamped(entries, PostingCurrency(entries)) ==> e.currency != ""
  {
    if |entries| > 0 {
      LinesNameCurrency(entries[..|entries| - 1]);
    }
  }

  /** The payoutable balance covers what the step draws, for every merchant and currency. */
  ghost predicate Affordable(b: Book, s: Step)
  {
    forall m, c :: Draw(b, s, m, c) <= Payoutable(b, m, c)
  }

  lemma HeadroomIsPayoutable(b: Book, m: string, c: string)
    requires BookOk(b) && Covered(b, m, c) && c != ""
    ensures Payoutable(b, m, c) == Headroom(b, m, c)
  {
    ReservedNonnegative(b, m, c);
  }

  lemma AffordableFor(b: Book, s: Step, m: string, c: string)
    requires BookOk(b) && AllCovered(b)
    ensures Covered(Apply(b, s), m, c) <==> Draw(b, s, m, c) <= Payoutable(b, m, c)
  {
    assert Covered(b, m, c);
    StepDraws(b, s, m, c);
    if c == "" {
      NoNamelessDraw(b, s, m);
    } else {
      HeadroomIsPayoutable(b, m, c);
    }
  }

  lemma StepCoveredIff(b: Book, s: Step)
    requires BookOk(b) && AllCovered(b)
    ensures AllCovered(Apply(b, s)) <==> Affordable(b, s)
  {
    forall m, c ensures Covered(Apply(b, s), m, c) <==> Draw(b, s, m, c) <= Payoutable(b, m, c) {
      AffordableFor(b, s, m, c);
    }
  }

  ghost predicate AffordableRun(steps: seq<Step>)
  {
    |steps| > 0 ==>
      AffordableRun(steps[..|steps| - 1]) && Affordable(Exec(EMPTY, steps[..|steps| - 1]), steps[|steps| - 1])
  }

  ghost predicate CoveredThroughout(steps: seq<Step>)
  {
    AllCovered(Exec(EMPTY, steps)) && (|steps| > 0 ==> CoveredThroughout(steps[..|steps| - 1]))
  }

  lemma NothingIsCovered()
    ensures AllCovered(EMPTY)
  {
    forall m, c ensures Covered(EMPTY, m, c) {
      SumMapZero(EMPTY.holds, LiveAmount(m, SettlementClearing, c, 0));
    }
  }

  /** Live holds stay within the credit balance at every point of a run exactly when every step
      draws no more than the payoutable balance of that instant. */
  lemma {:induction false} HoldsCoveredIff(steps: seq<Step>)
    ensures CoveredThroughout(steps) <==> AffordableRun(steps)
  {
    if |steps| == 0 {
      NothingIsCovered();
    } else {
      var init := steps[..|steps| - 1];
      HoldsCoveredIff(init);
      RunKeepsBookOk(init);
      if CoveredThroughout(init) {
        StepCoveredIff(Exec(EMPTY, init), steps[|steps| - 1]);
      }
    }
  }

  /** A new live hold leaves the account covered exactly when the reserve check passes
      at the instant of creation; a check made earlier is not enough. */
  lemma CreateKeepsCoveredIff(b: Book, id: string, input: CreateInput)
    requires BookOk(b) && Covered(b, input.merchant, OrINR(input.currency))
    requires Trimmed(input.account) == SettlementClearing && Create(b, id, input).result.Held?
    requires Live(Create(b, id, input).result.hold, b.now)
    ensures Covered(Create(b, id, input).book, input.merchant, OrINR(input.currency))
            <==> CanReserve(b, input.merchant, input.currency, input.amount)
  {
    CreateDraws(b, DoCreate(id, input), input.merchant, OrINR(input.currency));
    HeadroomIsPayoutable(b, input.merchant, OrINR(input.currency));
  }

  /** The discipline payouts are meant to follow on SETTLEMENT_CLEARING. */
  ghost predicate Disciplined(b: Book, s: Step)
  {
    match s
    case DoPost(_, source, entries) =>
      forall i :: 0 <= i < |entries| && entries[i].account == SettlementClearing ==> entries[i].debit == 0
    case DoCreate(_, input) =>
      Trimmed(input.account) == SettlementClearing ==> CanReserve(b, input.merchant, input.currency, input.amount)
    case DoExtend(merchant, id, _) =>
      Known(b, merchant, id) && b.holds[id].account == SettlementClearing ==> !Lapsed(b.holds[id], b.now)
    case DoCommit(merchant, id, _) =>
      Known(b, merchant, id) && b.holds[id].account == SettlementClearing ==> !Lapsed(b.holds[id], b.now)
    case _ => true
  }

  ghost predicate DisciplinedRun(steps: seq<Step>)
  {
    |steps| > 0 ==>
      DisciplinedRun(steps[..|steps| - 1]) && Disciplined(Exec(EMPTY, steps[..|steps| - 1]), steps[|steps| - 1])
  }

  lemma {:induction false} CreditLinesLowerClearing(entries: seq<Entry>, c: string)
    requires forall i :: 0 <= i < |entries| ==> entries[i].credit >= 0
    requires forall i :: 0 <= i < |entries| && entries[i].account == SettlementClearing ==> entries[i].debit == 0
    ensures LinesNet(entries, OnAccountIn(SettlementClearing, c)) <= 0
  {
    if |entries| > 0 {
      CreditLinesLowerClearing(entries[..|entries| - 1], c);
    }
  }

  lemma DisciplinedIsAffordable(b: Book, s: Step)
    requires Disciplined(b, s)
    ensures Affordable(b, s)
  {
    forall m, c ensures Draw(b, s, m, c) <= Payoutable(b, m, c) {
      if s.DoPost? && Post(b.txns, s.merchant, s.source, s.entries).Posted? {
        CreditLinesLowerClearing(MakeTxn(s.merchant, s.source, s.entries).lines, c);
      }
    }
  }

  lemma {:induction false} DisciplinedRunIsAffordable(steps: seq<Step>)
    requires DisciplinedRun(steps)
    ensures AffordableRun(steps)
  {
    if |steps| > 0 {
      DisciplinedRunIsAffordable(steps[..|steps| - 1]);
      DisciplinedIsAffordable(Exec(EMPTY, steps[..|steps| - 1]), steps[|steps| - 1]);
    }
  }

  /** In particular in every disciplined run, so no commit ever drives SETTLEMENT_CLEARING into debit. */
  lemma HoldsStayCovered(steps: seq<Step>, m: string, c: string)
    requires DisciplinedRun(steps)
    ensures 0 <= ClearingReserved(Exec(EMPTY, steps), m, c) <= -Clearing(Exec(EMPTY, steps), m, c)
  {
    DisciplinedRunIsAffordable(steps);
    HoldsCoveredIff(steps);
    RunKeepsBookOk(steps);
    ReservedNonnegative(Exec(EMPTY, steps), m, c);
    assert Covered(Exec(EMPTY, steps), m, c);
  }
}
