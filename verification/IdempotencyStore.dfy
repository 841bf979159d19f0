/** The idempotency store and the middleware around it: one request served alone. */
module IdempotencyStore {
  import opened Common
  import opened Idempotency

  datatype Tables = Tables(now: int, rows: map<Key, Record>, cache: map<Key, Cached>)

  function TablesOf(s: Sys): Tables
  {
    Tables(s.now, s.rows, s.cache)
  }

  /** Start with nothing in between; `reachable` says whether the cache answers. */
  function Started(t: Tables, key: Key, hash: string, reachable: bool): (Tables, Decision)
  {
    if key.merchant == "" || key.client == "" then (t, Bypass)
    else if reachable && key in t.cache then (t, FromCache(t.cache[key], hash))
    else if key !in t.rows then (t.(rows := t.rows[key := NewRecord(hash, t.now)]), Execute)
    else
      var decision := Decide(t.rows[key], hash, t.now, t.now);
      if decision == Execute then (t.(rows := t.rows[key := Reclaimed(t.rows[key], t.now)]), Execute)
      else (t, decision)
  }

  function RowClosed(t: Tables, key: Key, hash: string, status: Status, code: int, json: Json): Tables
  {
    if key in t.rows then t.(rows := t.rows[key := Closed(t.rows[key], hash, status, code, json)]) else t
  }

  function CompletedBy(t: Tables, key: Key, hash: string, code: int, bytes: Bytes, reachable: bool): Tables
  {
    if key.merchant == "" || key.client == "" || bytes == NotJson then t
    else
      var json := Normalize(bytes).value;
      var t' := RowClosed(t, key, hash, Completed, code, json);
      if reachable then t'.(cache := t'.cache[key := Cached(hash, code, json)]) else t'
  }

  function FailedBy(t: Tables, key: Key, hash: string, code: int, bytes: Bytes): Tables
  {
    if key.merchant == "" || key.client == "" || bytes == NotJson then t
    else RowClosed(t, key, hash, Failed, code, Normalize(bytes).value)
  }

  /** Server errors fail the record, anything else completes it. */
  function Ended(t: Tables, key: Key, hash: string, code: int, bytes: Bytes, reachable: bool): Tables
  {
    if code >= 500 then FailedBy(t, key, hash, code, bytes) else CompletedBy(t, key, hash, code, bytes, reachable)
  }

  datatype Reply =
    | PassedThrough(code: int, bytes: Bytes)
    | Handled(code: int, bytes: Bytes)
    | Replayed(code: int, json: Json)
    | Refused(decision: Decision)

  /** The middleware around a handler that would answer `code` and `bytes`. */
  function Served(t: Tables, key: Key, hash: string, code: int, bytes: Bytes, readable: bool, writable: bool): (Tables, Reply)
  {
    if key.merchant == "" || key.client == "" then (t, PassedThrough(code, bytes))
    else
      var (t', decision) := Started(t, key, hash, readable);
      match decision
      case Replay(c, json) => (t', Replayed(c, json))
      case Conflict => (t', Refused(Conflict))
      case Busy(n) => (t', Refused(Busy(n)))
      case _ => (Ended(t', key, hash, code, bytes, writable), Handled(code, bytes))
  }

  lemma {:induction false} ExecAppend(s: Sys, first: seq<Step>, second: seq<Step>)
    ensures Exec(s, first + second) == Exec(Exec(s, first), second)
  {
    if second == [] {
      assert first + second == first;
    } else {
      var init := second[..|second| - 1];
      ExecAppend(s, first, init);
      assert (first + second)[..|first + second| - 1] == first + init;
    }
  }

  lemma TwoSteps(s: Sys, a: Step, b: Step)
    ensures Exec(s, [a, b]) == Apply(Apply(s, a), b)
  {
    assert [a, b][..1] == [a];
    OneStep(s, a);
  }

  lemma FourSteps(s: Sys, a: Step, b: Step, c: Step, d: Step)
    ensures Exec(s, [a, b, c, d]) == Apply(Apply(Apply(Apply(s, a), b), c), d)
  {
    assert [a, b, c, d] == [a, b] + [c, d];
    ExecAppend(s, [a, b], [c, d]);
    TwoSteps(s, a, b);
    TwoSteps(Apply(Apply(s, a), b), c, d);
  }

  function Probed(t: Tables, key: Key, hash: string, reachable: bool): Call
  {
    if key.merchant == "" || key.client == "" then Answered(key, hash, Bypass)
    else if reachable && key in t.cache then Answered(key, hash, FromCache(t.cache[key], hash))
    else Inserting(key, hash, t.now)
  }

  lemma ProbeSteps(s: Sys, c: nat, key: Key, hash: string, reachable: bool)
    requires c !in s.calls
    ensures Apply(Apply(s, DoArrive(c, key, hash)), DoReadCache(c, reachable)) == With(s, c, Probed(TablesOf(s), key, hash, reachable))
  {
    if key.merchant != "" && key.client != "" {
      var s1 := With(s, c, Arriving(key, hash));
      assert s1.calls[c := Inserting(key, hash, s.now)] == s.calls[c := Inserting(key, hash, s.now)];
    }
  }

  lemma ClaimSteps(s: Sys, c: nat, key: Key, hash: string, reachable: bool)
    requires c in s.calls && s.calls[c] == Probed(TablesOf(s), key, hash, reachable)
    ensures var s' := Apply(Apply(s, DoInsert(c)), DoDecide(c));
            var (t, decision) := Started(TablesOf(s), key, hash, reachable);
            && TablesOf(s') == t
            && s'.calls == s.calls[c := if decision == Execute then Running(key, hash, s.now + LEASE)
                                        else Answered(key, hash, decision)]
  {
    if s.calls[c].Inserting? && key in s.rows {
      var s1 := With(s, c, Deciding(key, hash, s.now));
      assert Apply(s, DoInsert(c)) == s1;
    }
  }

  /** Start alone is what the four steps of one call do when no other step falls between them. */
  lemma StartIsItsSteps(s: Sys, c: nat, key: Key, hash: string, reachable: bool)
    requires c !in s.calls
    ensures var s' := Exec(s, [DoArrive(c, key, hash), DoReadCache(c, reachable), DoInsert(c), DoDecide(c)]);
            var (t, decision) := Started(TablesOf(s), key, hash, reachable);
            && TablesOf(s') == t
            && s'.calls == s.calls[c := if decision == Execute then Running(key, hash, s.now + LEASE)
                                        else Answered(key, hash, decision)]
  {
    FourSteps(s, DoArrive(c, key, hash), DoReadCache(c, reachable), DoInsert(c), DoDecide(c));
    ProbeSteps(s, c, key, hash, reachable);
    ClaimSteps(With(s, c, Probed(TablesOf(s), key, hash, reachable)), c, key, hash, reachable);
  }

  /** Complete or Fail alone is what the finishing steps of a running call do. */
  lemma EndIsItsSteps(s: Sys, c: nat, code: int, bytes: Bytes, reachable: bool)
    requires c in s.calls && s.calls[c].Running? && s.calls[c].key.merchant != "" && s.calls[c].key.client != ""
    ensures var s' := Exec(s, [DoFinish(c, code, bytes), DoStoreCache(c, reachable)]);
            && TablesOf(s') == Ended(TablesOf(s), s.calls[c].key, s.calls[c].hash, code, bytes, reachable)
            && s'.calls == s.calls[c := Finished(s.calls[c].key, s.calls[c].hash)]
  {
    TwoSteps(s, DoFinish(c, code, bytes), DoStoreCache(c, reachable));
  }

  predicate CacheFollowsRows(t: Tables)
  {
    forall k :: k in t.cache ==> k in t.rows && IsCompleted(t.rows[k], t.cache[k].code, t.cache[k].body)
  }

  /** A handler runs only for a key without a cached answer, and holds a fresh lease on its row. */
  lemma ExecutorHoldsLease(t: Tables, key: Key, hash: string, reachable: bool)
    requires CacheFollowsRows(t) && Started(t, key, hash, reachable).1 == Execute
    ensures var t' := Started(t, key, hash, reachable).0;
            && key !in t'.cache && t'.now == t.now && key in t'.rows
            && t'.rows[key].hash == hash && t'.rows[key].status == InProgress
            && t'.rows[key].lockedUntil == Some(t.now + LEASE)
  {
  }

  /** What a matching request finds once the lease holder has left. */
  lemma AfterTheHandler(t: Tables, key: Key, hash: string, code: int, bytes: Bytes, writable: bool, later: int, readable: bool)
    requires key.merchant != "" && key.client != "" && key !in t.cache && key in t.rows && t.now <= later
    requires t.rows[key].hash == hash && t.rows[key].status == InProgress && t.rows[key].lockedUntil == Some(t.now + LEASE)
    ensures var d := Started(Ended(t, key, hash, code, bytes, writable).(now := later), key, hash, readable).1;
            && (bytes != NotJson && code < 500 ==> d == Replay(code, Normalize(bytes).value))
            && (bytes != NotJson && code >= 500 ==> d == Execute)
            && (bytes == NotJson && later < t.now + LEASE ==> d.Busy?)
            && (bytes == NotJson && later >= t.now + LEASE ==> d == Execute)
  {
  }

  /** Serving the same request a second time, at any later instant and whether or not the
      cache answers: after an answer below 500 in JSON it gets that answer again and its
      handler does not run; after a server error the handler runs again; after a body that
      is not JSON it is refused until the lease has passed. */
  lemma ServedAgain(t: Tables, key: Key, hash: string, code: int, bytes: Bytes, r1: bool, w1: bool,
                    later: int, code2: int, bytes2: Bytes, r2: bool, w2: bool)
    requires CacheFollowsRows(t)
    requires t.now <= later && Served(t, key, hash, code, bytes, r1, w1).1.Handled?
    ensures var t' := Served(t, key, hash, code, bytes, r1, w1).0.(now := later);
            var reply := Served(t', key, hash, code2, bytes2, r2, w2).1;
            && (bytes != NotJson && code < 500 ==> reply == Replayed(code, Normalize(bytes).value))
            && (bytes != NotJson && code >= 500 ==> reply == Handled(code2, bytes2))
            && (bytes == NotJson && later < t.now + LEASE ==> reply.Refused? && reply.decision.Busy?)
            && (bytes == NotJson && later >= t.now + LEASE ==> reply == Handled(code2, bytes2))
  {
    ExecutorHoldsLease(t, key, hash, r1);
    AfterTheHandler(Started(t, key, hash, r1).0, key, hash, code, bytes, w1, later, r2);
  }

  /** A whole Start of one call. */
  function StartSteps(c: nat, key: Key, hash: string): seq<Step>
  {
    [DoArrive(c, key, hash), DoReadCache(c, true), DoInsert(c), DoDecide(c)]
  }

  /** One call starts, its lease lapses, and a second call with the same request starts. */
  function OverlappingSteps(key: Key, hash: string): seq<Step>
  {
    StartSteps(0, key, hash) + [DoTick(LEASE)] + StartSteps(1, key, hash)
  }

  /** Then both handlers answer, and only the first answer reaches the cache. */
  function SplittingSteps(key: Key, hash: string, a: Json, b: Json): seq<Step>
  {
    OverlappingSteps(key, hash)
    + [DoFinish(0, 200, Encodes(a)), DoStoreCache(0, true)]
    + [DoFinish(1, 200, Encodes(b)), DoStoreCache(1, false)]
  }

  /** Once a lease has lapsed two handlers run for one key at the same time. */
  lemma LapsedLeaseRunsTwo(key: Key, hash: string)
    requires key.merchant != "" && key.client != ""
    ensures var s := Exec(EMPTY, OverlappingSteps(key, hash));
            && s.calls == map[0 := Running(key, hash, LEASE), 1 := Running(key, hash, 2 * LEASE)]
            && s.cache == map[] && key in s.rows && s.rows[key].hash == hash
  {
    var first, second := StartSteps(0, key, hash), StartSteps(1, key, hash);
    StartIsItsSteps(EMPTY, 0, key, hash, true);
    var s1 := Exec(EMPTY, first);
    assert s1.calls == map[0 := Running(key, hash, LEASE)] && s1.rows[key] == NewRecord(hash, 0);
    var s2 := Apply(s1, DoTick(LEASE));
    ExecAppend(EMPTY, first, [DoTick(LEASE)]);
    OneStep(s1, DoTick(LEASE));
    StartIsItsSteps(s2, 1, key, hash, true);
    ExecAppend(EMPTY, first + [DoTick(LEASE)], second);
  }

  /** After both have ended the two layers disagree about the answer, though never about the request. */
  lemma LapsedLeaseSplitsAnswers(key: Key, hash: string, a: Json, b: Json)
    requires key.merchant != "" && key.client != ""
    ensures var s := Exec(EMPTY, SplittingSteps(key, hash, a, b));
            && key in s.cache && key in s.rows
            && FromCache(s.cache[key], hash) == Replay(200, a)
            && FromDatabase(s, key, hash) == Replay(200, b)
  {
    LapsedLeaseRunsTwo(key, hash);
    var before := OverlappingSteps(key, hash);
    var mid := Exec(EMPTY, before);
    var endFirst := [DoFinish(0, 200, Encodes(a)), DoStoreCache(0, true)];
    EndIsItsSteps(mid, 0, 200, Encodes(a), true);
    ExecAppend(EMPTY, before, endFirst);
    var s := Exec(mid, endFirst);
    var endSecond := [DoFinish(1, 200, Encodes(b)), DoStoreCache(1, false)];
    EndIsItsSteps(s, 1, 200, Encodes(b), false);
    ExecAppend(EMPTY, before + endFirst, endSecond);
  }

  class Store {
    var rows: map<Key, Record>
    var cached: map<Key, Cached>
    var now: int

    ghost function State(): Tables
      reads this
    {
      Tables(now, rows, cached)
    }

    constructor ()
      ensures State() == TablesOf(EMPTY)
    {
      rows, cached, now := map[], map[], 0;
    }

    method Start(key: Key, hash: string, reachable: bool) returns (d: Decision)
      modifies this`rows
      ensures (State(), d) == Started(old(State()), key, hash, reachable)
    {
      if key.merchant == "" || key.client == "" {
        return Bypass;
      }
      if reachable && key in cached {
        if cached[key].hash != hash {
          return Conflict;
        }
        return Replay(cached[key].code, cached[key].body);
      }
      var at := now;
      if key !in rows {
        rows := rows[key := NewRecord(hash, at)];
        return Execute;
      }
      var row := rows[key];
      if row.hash != hash {
        return Conflict;
      }
      if row.status == Completed && row.code.Some? && row.body.Some? {
        return Replay(row.code.value, row.body.value);
      }
      if row.status == InProgress && row.lockedUntil.Some? && row.lockedUntil.value > at {
        var retryAfter := GoDiv(row.lockedUntil.value - now, SECOND);
        if retryAfter < 1 {
          retryAfter := 1;
        }
        return Busy(retryAfter);
      }
      rows := rows[key := row.(status := InProgress, lockedUntil := Some(at + LEASE))];
      d := Execute;
    }

    method Complete(key: Key, hash: string, code: int, bytes: Bytes, reachable: bool)
      modifies this`rows, this`cached
      ensures State() == CompletedBy(old(State()), key, hash, code, bytes, reachable)
    {
      if key.merchant == "" || key.client == "" {
        return;
      }
      var json := Normalize(bytes);
      if json == None {
        return;
      }
      if key in rows {
        rows := rows[key := rows[key].(hash := hash, status := Completed, lockedUntil := None, code := Some(code), body := json)];
      }
      if reachable {
        cached := cached[key := Cached(hash, code, json.value)];
      }
    }

    method Fail(key: Key, hash: string, code: int, bytes: Bytes)
      modifies this`rows
      ensures State() == FailedBy(old(State()), key, hash, code, bytes)
    {
      if key.merchant == "" || key.client == "" {
        return;
      }
      var json := Normalize(bytes);
      if json == None {
        return;
      }
      if key in rows {
        rows := rows[key := rows[key].(hash := hash, status := Failed, lockedUntil := None, code := Some(code), body := json)];
      }
    }

    /** The handler's own answer is a parameter; it is used only when the handler runs. */
    method Wrap(key: Key, hash: string, code: int, bytes: Bytes, readable: bool, writable: bool) returns (reply: Reply)
      modifies this
      ensures (State(), reply) == Served(old(State()), key, hash, code, bytes, readable, writable)
    {
      if key.client == "" || key.merchant == "" {
        return PassedThrough(code, bytes);
      }
      var decision := Start(key, hash, readable);
      match decision {
        case Conflict => return Refused(Conflict);
        case Busy(n) => return Refused(Busy(n));
        case Replay(c, json) => return Replayed(c, json);
        case _ =>
      }
      if code >= 500 {
        Fail(key, hash, code, bytes);
      } else {
        Complete(key, hash, code, bytes, writable);
      }
      reply := Handled(code, bytes);
    }
  }
}
