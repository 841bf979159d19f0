/** What each hold operation decides and writes, in terms of the rows. */
module HoldLaws {
  import opened Common
  import opened Ledger
  import opened Holds
  import opened Payout

  predicate AllSpace(s: string)
  {
    forall i :: 0 <= i < |s| ==> IsSpace(s[i])
  }

  predicate Named(a: Account)
  {
    a.Unconfigured? ==> !AllSpace(a.code)
  }

  lemma NamedIff(a: Account)
    ensures Named(a) <==> !Blank(a)
  {
    if a.Unconfigured? { TrimmedIsEmptyIff(a.code); }
  }

  /** A hold is written exactly for a named account and source, a positive amount and a new id; it is
      active, on the account of that trimmed code, and in INR where no currency is given. */
  lemma HoldCreatedIff(b: Book, id: string, input: CreateInput)
    ensures var out := Create(b, id, input);
            var valid := Named(input.account) && !AllSpace(input.sourceType) && !AllSpace(input.sourceId) && input.amount > 0;
            && (out.result == InvalidHoldInput <==> !valid)
            && (out.result == PostingRefused(ConstraintViolation) <==> valid && id in b.holds)
            && (out.result.Held? <==> valid && id !in b.holds)
            && (!out.result.Held? ==> out.book == b)
            && (out.result.Held? ==>
                  var h := Hold(input.merchant, Trimmed(input.account), if input.currency == "" then "INR" else input.currency,
                                input.amount, Active, input.expiresAt, None);
                  out == Outcome(b.(holds := b.holds[id := h]), Held(h)))
  {
    NamedIff(input.account);
    TrimmedIsEmptyIff(input.sourceType);
    TrimmedIsEmptyIff(input.sourceId);
  }

  predicate HoldOf(b: Book, merchant: string, id: string)
  {
    id in b.holds && b.holds[id].merchant == merchant
  }

  /** How an operation on an active hold answers: asked again it shows the row it left, on any
      other final status it refuses. */
  predicate Answers(b: Book, merchant: string, id: string, out: Outcome, done: HoldStatus)
  {
    if !HoldOf(b, merchant, id) then out == Outcome(b, HoldNotFound)
    else if b.holds[id].status == Active then out.result.Held? && id in out.book.holds && out.result.hold == out.book.holds[id]
    else if b.holds[id].status == done then out == Outcome(b, Held(b.holds[id]))
    else out == Outcome(b, HoldNotActive)
  }

  lemma HoldAnswers(b: Book, merchant: string, id: string, expiresAt: Option<int>)
    ensures Answers(b, merchant, id, Release(b, merchant, id), Released)
    ensures Answers(b, merchant, id, ExpireOne(b, merchant, id), Expired)
    ensures Answers(b, merchant, id, Extend(b, merchant, id, expiresAt), Active)
  {
  }

  /** A commit answers in the same way, and refuses with the ledger what the ledger refuses. */
  lemma CommitAnswers(b: Book, merchant: string, id: string, target: Account)
    requires BookOk(b)
    ensures var out := Commit(b, merchant, id, target);
            if !Named(target) then out == Outcome(b, InvalidHoldInput)
            else if !HoldOf(b, merchant, id) then out == Outcome(b, HoldNotFound)
            else if b.holds[id].status == Committed then out == Outcome(b, Held(b.holds[id]))
            else if b.holds[id].status != Active then out == Outcome(b, HoldNotActive)
            else if b.holds[id].account in CONFIGURED && target in CONFIGURED && !SourceUsed(b.txns, Source("ledger_hold_commit", id))
            then
              && out.result.Held? && id in out.book.holds && out.result.hold == out.book.holds[id]
              && |out.book.txns| == |b.txns| + 1 && out.book.txns[..|b.txns|] == b.txns
              && out.book.txns[|b.txns|].source == Source("ledger_hold_commit", id)
              && out.book.txns[|b.txns|].lines == [Entry(b.holds[id].account, b.holds[id].amount, 0, b.holds[id].currency),
                                                   Entry(target, 0, b.holds[id].amount, b.holds[id].currency)]
            else out.book == b && out.result.PostingRefused?
  {
    NamedIff(target);
    if HoldOf(b, merchant, id) && b.holds[id].status == Active {
      assert HoldOk(b, id);
      CommitSucceedsIff(b, merchant, id, target);
    }
  }

  /** The step is an operation of the hold's merchant on it. */
  predicate Addresses(s: Step, id: string, h: Hold)
  {
    (s.DoRelease? || s.DoExtend? || s.DoCommit? || s.DoExpire?) && s.id == id && s.merchant == h.merchant
  }

  /** The sweep takes the hold: chosen, with an expiry that has come. */
  predicate SweptBy(s: Step, id: string, h: Hold, now: int)
  {
    s.DoSweep? && id in s.chosen && h.expiresAt.Some? && h.expiresAt.value <= now
  }

  /** The commit goes through. */
  predicate GoesThrough(b: Book, s: Step, id: string, h: Hold)
  {
    && s.DoCommit? && Addresses(s, id, h) && h.account in CONFIGURED && s.target in CONFIGURED
    && !SourceUsed(b.txns, Source("ledger_hold_commit", id))
  }

  /** One step of the life of a hold: its terms never change, a final status never changes, and an
      active one is released, committed or expired exactly by its own operation or by a sweep at its
      expiry; the expiry moves exactly with an extension and the target is set exactly by a commit. */
  lemma HoldFollows(b: Book, s: Step, id: string)
    requires BookOk(b) && id in b.holds
    ensures id in Apply(b, s).holds
    ensures var h, h' := b.holds[id], Apply(b, s).holds[id];
            if h.status != Active then h' == h
            else
              h' == h.(
                status :=
                  if s.DoRelease? && Addresses(s, id, h) then Released
                  else if GoesThrough(b, s, id, h) then Committed
                  else if (s.DoExpire? && Addresses(s, id, h)) || SweptBy(s, id, h, b.now) then Expired
                  else Active,
                expiresAt := if s.DoExtend? && Addresses(s, id, h) then s.expiresAt else h.expiresAt,
                target := if GoesThrough(b, s, id, h) then Some(s.target) else h.target)
  {
    if s.DoCommit? && s.id in b.holds && b.holds[s.id].merchant == s.merchant && b.holds[s.id].status == Active {
      assert HoldOk(b, s.id);
      CommitSucceedsIff(b, s.merchant, s.id, s.target);
    }
  }

  /** Extending an active hold, lapsed or not, makes it count from now on exactly until its new expiry. */
  lemma LiveAfterExtend(b: Book, merchant: string, id: string, expiresAt: Option<int>, later: int)
    requires HoldOf(b, merchant, id) && b.holds[id].status == Active && later >= b.now
    ensures var b' := Exec(b, [DoExtend(merchant, id, expiresAt), DoTick(later)]);
            && id in b'.holds && b'.now == later
            && (Live(b'.holds[id], b'.now) <==> expiresAt.Some? ==> later < expiresAt.value)
  {
    var steps := [DoExtend(merchant, id, expiresAt), DoTick(later)];
    assert steps[..1] == [DoExtend(merchant, id, expiresAt)] && steps[..1][..0] == [];
    assert Exec(b, steps[..1]) == Apply(Exec(b, []), DoExtend(merchant, id, expiresAt));
    assert Exec(b, steps) == Apply(Exec(b, steps[..1]), DoTick(later));
  }

  /** What a hold takes off an account: its amount while active and not yet expired. */
  function Standing(merchant: string, a: Account, currency: string, now: int): (string, Hold) -> int
  {
    (id: string, h: Hold) =>
      if h.merchant == merchant && h.account == a && h.currency == currency && h.status == Active
         && (h.expiresAt.Some? ==> now < h.expiresAt.value)
      then h.amount else 0
  }

  lemma ReservedIsStanding(b: Book, merchant: string, a: Account, currency: string)
    ensures Reserved(b, merchant, a, currency) == SumMap(b.holds, Standing(merchant, a, currency, b.now))
  {
    SumMapMonotone(b.holds, Standing(merchant, a, currency, b.now), LiveAmount(merchant, a, currency, b.now));
    SumMapMonotone(b.holds, LiveAmount(merchant, a, currency, b.now), Standing(merchant, a, currency, b.now));
  }

  /** What may be paid out is what the holds leave of the clearing account's credit, never negative. */
  lemma PayoutableIs(b: Book, merchant: string, currency: string)
    requires BookOk(b)
    ensures var c := if currency == "" then "INR" else currency;
            var left := -BalanceByCurrency(b.txns, merchant, SettlementClearing, c)
                        - SumMap(b.holds, Standing(merchant, SettlementClearing, c, b.now));
            Payoutable(b, merchant, currency) == if left > 0 then left else 0
  {
    var c := if currency == "" then "INR" else currency;
    var w := Standing(merchant, SettlementClearing, c, b.now);
    ReservedIsStanding(b, merchant, SettlementClearing, c);
    forall k | k in b.holds ensures w(k, b.holds[k]) >= 0 {
      assert HoldOk(b, k);
    }
    SumMapNonnegative(b.holds, w);
  }
}
