/** The hold tables updated in place, each method proved against its operation on a Book. */
module HoldRepository {
  import opened Common
  import opened Ledger
  import opened Holds
  import opened Payout
  import opened HoldLaws

  ghost function DueSet(b: Book): set<string>
  {
    set id | id in b.holds && IsDue(b, id)
  }

  /** The part of the due holds a sweep may take: the earliest by expiry, as many as the limit allows. */
  ghost predicate IsSweep(b: Book, limit: int, chosen: set<string>)
  {
    && chosen <= DueSet(b)
    && |chosen| == (if limit < |DueSet(b)| then limit else |DueSet(b)|)
    && (forall id, other :: id in chosen && other in DueSet(b) - chosen ==>
          b.holds[id].expiresAt.value <= b.holds[other].expiresAt.value)
  }

  class Repository {
    var txns: seq<Txn>
    var holds: map<string, Hold>
    var now: int

    ghost function State(): Book
      reads this
    {
      Book(txns, holds, now)
    }

    constructor ()
      ensures State() == EMPTY
    {
      txns, holds, now := [], map[], 0;
    }

    method CreateHold(id: string, input: CreateInput) returns (r: HoldResult)
      modifies this`holds
      ensures Outcome(State(), r) == Create(old(State()), id, input)
    {
      var currency := input.currency;
      if currency == "" {
        currency := "INR";
      }
      var account := Trimmed(input.account);
      if Blank(input.account) || TrimSpace(input.sourceType) == "" || TrimSpace(input.sourceId) == "" || input.amount <= 0 {
        return InvalidHoldInput;
      }
      if id in holds {
        return PostingRefused(ConstraintViolation);
      }
      var h := Hold(input.merchant, account, currency, input.amount, Active, input.expiresAt, None);
      holds := holds[id := h];
      r := Held(h);
    }

    method ReleaseHold(merchant: string, id: string) returns (r: HoldResult)
      modifies this`holds
      ensures Outcome(State(), r) == Release(old(State()), merchant, id)
    {
      if id in holds && holds[id].merchant == merchant && holds[id].status == Active {
        holds := holds[id := holds[id].(status := Released)];
        return Held(holds[id]);
      }
      if id !in holds || holds[id].merchant != merchant {
        return HoldNotFound;
      }
      if holds[id].status == Released {
        return Held(holds[id]);
      }
      r := HoldNotActive;
    }

    method ExtendHold(merchant: string, id: string, expiresAt: Option<int>) returns (r: HoldResult)
      modifies this`holds
      ensures Outcome(State(), r) == Extend(old(State()), merchant, id, expiresAt)
    {
      if id !in holds || holds[id].merchant != merchant {
        return HoldNotFound;
      }
      if holds[id].status != Active {
        return HoldNotActive;
      }
      holds := holds[id := holds[id].(expiresAt := expiresAt)];
      r := Held(holds[id]);
    }

    method CommitHold(merchant: string, id: string, target: Account) returns (r: HoldResult)
      modifies this`holds, this`txns
      ensures Outcome(State(), r) == Commit(old(State()), merchant, id, target)
    {
      if Blank(target) {
        return InvalidHoldInput;
      }
      if id !in holds || holds[id].merchant != merchant {
        return HoldNotFound;
      }
      var h := holds[id];
      if h.status == Committed {
        return Held(h);
      }
      if h.status != Active {
        return HoldNotActive;
      }
      var entries := [Entry(h.account, h.amount, 0, h.currency), Entry(target, 0, h.amount, h.currency)];
      var posting := CreateEntriesTx(txns, merchant, HoldCommit(id), entries);
      if !posting.Posted? {
        return PostingRefused(posting);
      }
      txns := posting.txns;
      holds := holds[id := h.(status := Committed, target := Some(target))];
      r := Held(holds[id]);
    }

    method ExpireHold(merchant: string, id: string) returns (r: HoldResult)
      modifies this`holds
      ensures Outcome(State(), r) == ExpireOne(old(State()), merchant, id)
    {
      if id in holds && holds[id].merchant == merchant && holds[id].status == Active {
        holds := holds[id := holds[id].(status := Expired)];
        return Held(holds[id]);
      }
      if id !in holds || holds[id].merchant != merchant {
        return HoldNotFound;
      }
      if holds[id].status == Expired {
        return Held(holds[id]);
      }
      r := HoldNotActive;
    }

    /** The due hold that expires first. */
    method EarliestDue(due: set<string>) returns (id: string)
      requires due != {} && due <= DueSet(State())
      ensures id in due
      ensures forall other :: other in due ==> holds[id].expiresAt.value <= holds[other].expiresAt.value
    {
      id :| id in due;
      var rest := due - {id};
      while rest != {}
        invariant rest <= due && id in due
        invariant forall other :: other in due - rest ==> holds[id].expiresAt.value <= holds[other].expiresAt.value
        decreases rest
      {
        var next :| next in rest;
        rest := rest - {next};
        if holds[next].expiresAt.value < holds[id].expiresAt.value {
          id := next;
        }
      }
    }

    /** Takes due holds one at a time, earliest expiry first, until none is left or the batch is full. */
    method SelectDue(batch: nat) returns (chosen: set<string>)
      ensures IsSweep(State(), batch, chosen) && (|chosen| < batch ==> chosen == DueSet(State()))
    {
      var rest := set id | id in holds && holds[id].status == Active && holds[id].expiresAt.Some? && holds[id].expiresAt.value <= now;
      ghost var due := DueSet(State());
      assert rest == due;
      chosen := {};
      while rest != {} && |chosen| < batch
        invariant chosen <= due && rest == due - chosen && |chosen| <= batch
        invariant |chosen| + |rest| == |due|
        invariant forall id, other :: id in chosen && other in rest ==>
                    holds[id].expiresAt.value <= holds[other].expiresAt.value
        decreases rest
      {
        var id := EarliestDue(rest);
        chosen, rest := chosen + {id}, rest - {id};
      }
    }

    /** Expires the due holds, earliest first, up to the limit (100 when none is given). */
    method ExpireDueHolds(limit: int) returns (count: int, ghost chosen: set<string>)
      modifies this`holds
      ensures IsSweep(old(State()), if limit <= 0 then 100 else limit, chosen)
      ensures State() == ExpireAll(old(State()), chosen) && count == |chosen| && holds.Keys == old(holds).Keys
      ensures forall id :: id in holds ==> holds[id] == if id in chosen then old(holds)[id].(status := Expired) else old(holds)[id]
      ensures forall id :: id in chosen ==>
                && id in old(holds) && old(holds)[id].status == Active
                && old(holds)[id].expiresAt.Some? && old(holds)[id].expiresAt.value <= now
      ensures count < (if limit <= 0 then 100 else limit) ==>
                forall id :: id in holds && holds[id].status == Active && holds[id].expiresAt.Some? ==>
                  now < holds[id].expiresAt.value
    {
      var batch := limit;
      if batch <= 0 {
        batch := 100;
      }
      var taken := SelectDue(batch);
      assert |taken| < batch ==> forall id :: IsDue(State(), id) ==> id in taken;
      holds := map id | id in holds :: if id in taken then holds[id].(status := Expired) else holds[id];
      count, chosen := |taken|, taken;
    }

    /** Sums the live holds of a merchant on one account in one currency. */
    method SumActiveHolds(merchant: string, a: Account, currency: string) returns (amount: int)
      ensures amount == Reserved(State(), merchant, a, currency) == SumMap(holds, Standing(merchant, a, currency, now))
    {
      amount := 0;
      var rest := holds;
      ghost var w := LiveAmount(merchant, a, currency, now);
      while rest != map[]
        invariant amount + SumMap(rest, w) == SumMap(holds, w)
        invariant rest.Keys <= holds.Keys && forall id :: id in rest ==> rest[id] == holds[id]
        decreases |rest|
      {
        var id :| id in rest;
        SumMapTake(rest, id, w);
        var h := rest[id];
        if h.merchant == merchant && h.account == a && h.currency == currency && h.status == Active
           && (h.expiresAt.None? || h.expiresAt.value > now) {
          amount := amount + h.amount;
        }
        rest := rest - {id};
      }
      ReservedIsStanding(State(), merchant, a, currency);
    }

    method GetPayoutableBalance(merchant: string, currency: string) returns (available: int)
      ensures available == Payoutable(State(), merchant, currency)
    {
      var c := currency;
      if c == "" {
        c := "INR";
      }
      var balance := BalanceByCurrency(txns, merchant, SettlementClearing, c);
      var reserved := SumActiveHolds(merchant, SettlementClearing, c);
      available := 0;
      if balance < 0 {
        available := -balance;
      }
      available := available - reserved;
      if available < 0 {
        available := 0;
      }
    }

    method CanReserveForPayout(merchant: string, currency: string, amount: int) returns (ok: bool)
      ensures ok <==> amount <= Payoutable(State(), merchant, currency)
    {
      var available := GetPayoutableBalance(merchant, currency);
      ok := available >= amount;
    }
  }
}
