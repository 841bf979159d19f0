/** Merchant reserve policies: what is stored, what is suggested and how much is held back. */
module Reserve {
  import opened Common

  datatype PolicyType = NoReserve | Fixed | Rolling | OtherType(name: string)

  datatype Policy = Policy(typ: PolicyType, bps: int, holdDays: int, threshold: int)

  const DEFAULT := Policy(NoReserve, 0, 0, 0)

  predicate Valid(p: Policy)
  {
    && (match p.typ
        case NoReserve => p.bps == 0 && p.holdDays == 0
        case OtherType(_) => false
        case _ => 0 <= p.bps <= 10000 && p.holdDays >= 0)
    && p.threshold >= 0
  }

  // What is held back

  function CalculateReserve(p: Policy, net: int): int
  {
    if net <= 0 || (p.threshold > 0 && net < p.threshold) then 0
    else match p.typ
      case Fixed => GoDiv(net * p.bps, 10000)
      case Rolling => GoDiv(net * p.bps, 10000)
      case _ => 0
  }

  lemma ProductBounds(net: int, bps: int)
    requires net >= 0 && 0 <= bps <= 10000
    ensures 0 <= net * bps <= net * 10000
  {
  }

  /** A valid policy holds back something between nothing and everything. */
  lemma ReserveWithinNet(p: Policy, net: int)
    requires Valid(p)
    ensures 0 <= CalculateReserve(p, net) <= if net > 0 then net else 0
  {
    if net > 0 && p.typ != NoReserve { ProductBounds(net, p.bps); }
  }

  /** Nothing is held back below the threshold or without a reserve; otherwise it is the
      policy's share of the net amount, rounded down. */
  lemma ReserveIs(p: Policy, net: int)
    requires Valid(p)
    ensures var r := CalculateReserve(p, net);
            if net <= 0 || net < p.threshold || p.typ == NoReserve then r == 0
            else 10000 * r <= net * p.bps < 10000 * r + 10000
  {
    if net > 0 && p.typ != NoReserve { ProductBounds(net, p.bps); }
  }

  function ReserveOf(p: Policy): int -> int
  {
    net => CalculateReserve(p, net)
  }

  function Amount(): int -> int
  {
    net => net
  }

  /** Splitting in two reserves no more, and at most one minor unit less when both parts
      reach the threshold. */
  lemma SplitInTwo(p: Policy, a: int, b: int)
    requires Valid(p) && a >= 0 && b >= 0
    ensures CalculateReserve(p, a) + CalculateReserve(p, b) <= CalculateReserve(p, a + b)
    ensures a >= p.threshold && b >= p.threshold ==>
              CalculateReserve(p, a + b) <= CalculateReserve(p, a) + CalculateReserve(p, b) + 1
  {
    ReserveWithinNet(p, a + b);
    if p.typ != NoReserve {
      assert (a + b) * p.bps == a * p.bps + b * p.bps;
      ProductBounds(a, p.bps);
      ProductBounds(b, p.bps);
    }
  }

  lemma {:induction false} PartsAreNonnegative(parts: seq<int>)
    requires forall i :: 0 <= i < |parts| ==> parts[i] >= 0
    ensures SumSeq(parts, Amount()) >= 0
  {
    if |parts| > 0 {
      PartsAreNonnegative(parts[..|parts| - 1]);
    }
  }

  /** Splitting a net amount, into any number of parts, never raises the total reserve. */
  lemma {:induction false} SplittingNeverRaises(p: Policy, parts: seq<int>)
    requires Valid(p) && forall i :: 0 <= i < |parts| ==> parts[i] >= 0
    ensures SumSeq(parts, ReserveOf(p)) <= CalculateReserve(p, SumSeq(parts, Amount()))
  {
    if |parts| == 0 {
      ReserveWithinNet(p, 0);
    } else {
      var init := parts[..|parts| - 1];
      SplittingNeverRaises(p, init);
      PartsAreNonnegative(init);
      SplitInTwo(p, SumSeq(init, Amount()), parts[|parts| - 1]);
    }
  }

  // Sixty-four bits

  const MAX64 := 0x7FFF_FFFF_FFFF_FFFF
  const MODULUS := 0x1_0000_0000_0000_0000

  function Wrap64(x: int): int
  {
    var r := x % MODULUS;
    if r > MAX64 then r - MODULUS else r
  }

  /** The same computation with the product kept in an int64. */
  function MachineReserve(p: Policy, net: int): int
  {
    if net <= 0 || (p.threshold > 0 && net < p.threshold) then 0
    else match p.typ
      case Fixed => GoDiv(Wrap64(net * p.bps), 10000)
      case Rolling => GoDiv(Wrap64(net * p.bps), 10000)
      case _ => 0
  }

  ghost predicate MachineExact(net: int)
  {
    forall p :: Valid(p) ==> MachineReserve(p, net) == CalculateReserve(p, net)
  }

  lemma MachineExactForOne(p: Policy, net: int)
    requires Valid(p) && net <= MAX64 / 10000
    ensures MachineReserve(p, net) == CalculateReserve(p, net)
  {
    if net > 0 && p.typ != NoReserve { ProductBounds(net, p.bps); }
  }

  /** The product never overflows, whatever the valid policy, exactly up to (2^63 - 1) / 10000. */
  lemma MachineExactIff(net: int)
    requires net <= MAX64
    ensures MachineExact(net) <==> net <= MAX64 / 10000
  {
    if net <= MAX64 / 10000 {
      forall p | Valid(p) ensures MachineReserve(p, net) == CalculateReserve(p, net) {
        MachineExactForOne(p, net);
      }
    } else {
      var all := Policy(Fixed, 10000, 0, 0);
      assert Valid(all) && CalculateReserve(all, net) == net;
      assert Wrap64(net * 10000) <= MAX64;
      assert MachineReserve(all, net) != net;
    }
  }

  // What is stored

  datatype Decision = Approved | Rejected

  datatype EscalationStatus = Pending | Reviewed(decision: Decision)

  datatype Escalation = Escalation(merchant: string, status: EscalationStatus, suggested: Policy)

  datatype Tables = Tables(policies: map<string, Policy>, escalations: map<string, Escalation>)

  datatype Result = Stored | InvalidPolicy | NotFound | ConstraintViolation

  /** The CHECK constraints of the policy table. */
  predicate Storable(p: Policy)
  {
    !p.typ.OtherType? && 0 <= p.bps <= 10000 && p.holdDays >= 0 && p.threshold >= 0
  }

  function GetPolicy(t: Tables, merchant: string): Policy
  {
    if merchant in t.policies then t.policies[merchant] else DEFAULT
  }

  function Upsert(t: Tables, merchant: string, p: Policy): (Tables, Result)
  {
    if !Valid(p) then (t, InvalidPolicy)
    else if !Storable(p) then (t, ConstraintViolation)
    else (t.(policies := t.policies[merchant := p]), Stored)
  }

  /** At least the current percentage and hold, at least the base, and never no reserve at all. */
  function Suggest(current: Policy, base: int): Policy
  {
    var bps := if current.bps < base then base else current.bps;
    Policy(Rolling, if bps == 0 then 1000 else bps, if current.holdDays < 14 then 14 else current.holdDays, current.threshold)
  }

  function Queue(t: Tables, id: string, merchant: string, base: int): Tables
  {
    if id in t.escalations then t
    else t.(escalations := t.escalations[id := Escalation(merchant, Pending, Suggest(GetPolicy(t, merchant), base))])
  }

  /** An approval stores the suggestion, or the override if there is one; the suggestion itself is not validated. */
  function Review(t: Tables, merchant: string, id: string, decision: Decision, override: Option<Policy>): (Tables, Result)
  {
    if override.Some? && !Valid(override.value) then (t, InvalidPolicy)
    else if id !in t.escalations || t.escalations[id].merchant != merchant then (t, NotFound)
    else
      var e := t.escalations[id];
      var p := if override.Some? then override.value else e.suggested;
      if decision == Approved && !Storable(p) then (t, ConstraintViolation)
      else
        (Tables(if decision == Approved then t.policies[merchant := p] else t.policies,
                t.escalations[id := e.(status := Reviewed(decision))]), Stored)
  }

  datatype Step =
    | DoUpsert(merchant: string, policy: Policy)
    | DoQueue(id: string, merchant: string, base: int)
    | DoReview(merchant: string, id: string, decision: Decision, override: Option<Policy>)

  function Apply(t: Tables, s: Step): Tables
  {
    match s
    case DoUpsert(merchant, p) => Upsert(t, merchant, p).0
    case DoQueue(id, merchant, base) => Queue(t, id, merchant, base)
    case DoReview(merchant, id, decision, override) => Review(t, merchant, id, decision, override).0
  }

  function Exec(t: Tables, steps: seq<Step>): Tables
  {
    if |steps| == 0 then t else Apply(Exec(t, steps[..|steps| - 1]), steps[|steps| - 1])
  }

  const EMPTY := Tables(map[], map[])

  /** Suggestions are percentages of some size; only the upper limit is left to the database. */
  predicate PlainSuggestion(p: Policy)
  {
    p.typ == Rolling && p.bps > 0 && p.holdDays >= 14 && p.threshold >= 0
  }

  predicate TablesOk(t: Tables)
  {
    && (forall m :: m in t.policies ==> Valid(t.policies[m]))
    && (forall id :: id in t.escalations ==> PlainSuggestion(t.escalations[id].suggested))
  }

  lemma StepKeepsTablesOk(t: Tables, s: Step)
    requires TablesOk(t)
    ensures TablesOk(Apply(t, s))
  {
  }

  lemma {:induction false} RunKeepsTablesOk(steps: seq<Step>)
    ensures TablesOk(Exec(EMPTY, steps))
  {
    if |steps| > 0 {
      RunKeepsTablesOk(steps[..|steps| - 1]);
      StepKeepsTablesOk(Exec(EMPTY, steps[..|steps| - 1]), steps[|steps| - 1]);
    }
  }

  /** Over any run of upserts, queued escalations and reviews every stored policy is valid,
      so what is held back always lies between nothing and the net amount. */
  lemma StoredPoliciesStayValid(steps: seq<Step>, merchant: string, net: int)
    ensures var p := GetPolicy(Exec(EMPTY, steps), merchant);
            Valid(p) && 0 <= CalculateReserve(p, net) && (net >= 0 ==> CalculateReserve(p, net) <= net)
  {
    RunKeepsTablesOk(steps);
    ReserveWithinNet(GetPolicy(Exec(EMPTY, steps), merchant), net);
  }

  /** A queued suggestion is valid, and its approval stored, exactly when the base is at most 10000. */
  lemma SuggestionStorableIff(steps: seq<Step>, id: string, merchant: string, base: int)
    requires id !in Exec(EMPTY, steps).escalations
    ensures var t := Queue(Exec(EMPTY, steps), id, merchant, base);
            && (Valid(t.escalations[id].suggested) <==> base <= 10000)
            && (Review(t, merchant, id, Approved, None).1 == Stored <==> base <= 10000)
  {
    RunKeepsTablesOk(steps);
  }

  lemma MoreBpsMoreReserve(net: int, bps: int, bps': int)
    requires net >= 0 && 0 <= bps <= bps'
    ensures 0 <= GoDiv(net * bps, 10000) <= GoDiv(net * bps', 10000)
  {
    assert 0 <= net * bps <= net * bps';
  }

  /** Whatever is settled, the suggestion holds back no less than the policy it was made from. */
  lemma SuggestionReservesNoLess(current: Policy, base: int, net: int)
    requires Valid(current)
    ensures CalculateReserve(current, net) <= CalculateReserve(Suggest(current, base), net)
  {
    if net > 0 {
      MoreBpsMoreReserve(net, current.bps, Suggest(current, base).bps);
    }
  }

  /** The suggestion: a rolling reserve of the greater of the current percentage and the base, ten
      percent where both are nothing, held two weeks at least, from the same threshold up. */
  predicate SuggestedFrom(current: Policy, base: int, s: Policy)
  {
    && s.typ == Rolling && s.threshold == current.threshold
    && s.holdDays >= 14 && s.holdDays >= current.holdDays && (s.holdDays == 14 || s.holdDays == current.holdDays)
    && s.bps >= base && s.bps >= current.bps
    && (if base <= 0 && current.bps == 0 then s.bps == 1000 else s.bps == base || s.bps == current.bps)
  }

  lemma SuggestionIs(current: Policy, base: int)
    requires Valid(current)
    ensures SuggestedFrom(current, base, Suggest(current, base))
  {
  }

  /** A queued escalation is pending and suggests a change to the policy stored for its merchant, or to
      no reserve at all where none is stored. */
  lemma QueuedIs(t: Tables, id: string, merchant: string, base: int)
    requires TablesOk(t) && id !in t.escalations
    ensures var t' := Queue(t, id, merchant, base);
            var current := if merchant in t.policies then t.policies[merchant] else Policy(NoReserve, 0, 0, 0);
            && id in t'.escalations && t' == t.(escalations := t.escalations[id := t'.escalations[id]])
            && t'.escalations[id].merchant == merchant && t'.escalations[id].status == Pending
            && SuggestedFrom(current, base, t'.escalations[id].suggested)
  {
    SuggestionIs(GetPolicy(t, merchant), base);
  }

  /** What a review writes, and why one is refused. */
  lemma ReviewIs(t: Tables, merchant: string, id: string, decision: Decision, override: Option<Policy>)
    requires TablesOk(t)
    ensures var (t', r) := Review(t, merchant, id, decision, override);
            var mine := id in t.escalations && t.escalations[id].merchant == merchant;
            && (r == InvalidPolicy <==> override.Some? && !Valid(override.value))
            && (r == NotFound <==> r != InvalidPolicy && !mine)
            && (r == ConstraintViolation
                <==> mine && decision == Approved && override == None && t.escalations[id].suggested.bps > 10000)
            && (r != Stored ==> t' == t)
            && (r == Stored ==>
                  && t'.escalations == t.escalations[id := t.escalations[id].(status := Reviewed(decision))]
                  && (decision == Rejected ==> t'.policies == t.policies)
                  && (decision == Approved && override.Some? ==> t'.policies == t.policies[merchant := override.value])
                  && (decision == Approved && override == None ==>
                        t'.policies == t.policies[merchant := t.escalations[id].suggested]))
  {
  }

  class Store {
    var policies: map<string, Policy>
    var escalations: map<string, Escalation>

    ghost function State(): Tables
      reads this
    {
      Tables(policies, escalations)
    }

    constructor ()
      ensures State() == EMPTY
    {
      policies, escalations := map[], map[];
    }

    method UpsertReservePolicy(merchant: string, p: Policy) returns (r: Result)
      modifies this`policies
      ensures (State(), r) == Upsert(old(State()), merchant, p)
      ensures r == Stored <==> && p.threshold >= 0
                               && (|| (p.typ == NoReserve && p.bps == p.holdDays == 0)
                                   || ((p.typ == Fixed || p.typ == Rolling) && 0 <= p.bps <= 10000 && p.holdDays >= 0))
      ensures policies == if r == Stored then old(policies)[merchant := p] else old(policies)
    {
      if !Valid(p) {
        return InvalidPolicy;
      }
      policies := policies[merchant := p];
      r := Stored;
    }

    /** Ids are generated and never repeat. */
    method QueueReserveEscalation(id: string, merchant: string, base: int)
      requires id !in escalations
      modifies this`escalations
      ensures State() == Queue(old(State()), id, merchant, base)
    {
      var current := if merchant in policies then policies[merchant] else DEFAULT;
      var percentage := current.bps;
      if percentage < base {
        percentage := base;
      }
      if percentage == 0 {
        percentage := 1000;
      }
      var holdDays := current.holdDays;
      if holdDays < 14 {
        holdDays := 14;
      }
      escalations := escalations[id := Escalation(merchant, Pending, Policy(Rolling, percentage, holdDays, current.threshold))];
    }

    method ReviewReserveEscalation(merchant: string, id: string, decision: Decision, override: Option<Policy>) returns (r: Result)
      modifies this
      ensures (State(), r) == Review(old(State()), merchant, id, decision, override)
    {
      if override.Some? && !Valid(override.value) {
        return InvalidPolicy;
      }
      if id !in escalations || escalations[id].merchant != merchant {
        return NotFound;
      }
      if decision == Approved {
        var p := escalations[id].suggested;
        if override.Some? {
          p := override.value;
        }
        if !Storable(p) {
          return ConstraintViolation;
        }
        policies := policies[merchant := p];
      }
      escalations := escalations[id := escalations[id].(status := Reviewed(decision))];
      r := Stored;
    }
  }
}
