/** The idempotency protocol: one record row per key, a lease, and a cache in front, in
    every interleaving of requests. */
module Idempotency {
  import opened Common

  datatype Key = Key(merchant: string, endpoint: string, client: string)

  /** A JSON value in its normalised form; its text is never empty. */
  datatype Json = Json(text: string)

  const EMPTY_OBJECT := Json("{}")

  /** The bytes a handler wrote. */
  datatype Bytes = NoBytes | Encodes(json: Json) | NotJson

  function Normalize(body: Bytes): Option<Json>
  {
    match body
    case NoBytes => Some(EMPTY_OBJECT)
    case Encodes(json) => Some(json)
    case NotJson => None
  }

  datatype Status = InProgress | Completed | Failed

  datatype Record = Record(hash: string, status: Status, lockedUntil: Option<int>, code: Option<int>, body: Option<Json>)

  datatype Cached = Cached(hash: string, code: int, body: Json)

  datatype Decision =
    | Bypass
    | Execute
    | Replay(code: int, body: Json)
    | Busy(retryAfter: int)
    | Conflict

  const LEASE := 30 * SECOND

  function RetryAfter(lockedUntil: int, clock: int): int
  {
    var seconds := GoDiv(lockedUntil - clock, SECOND);
    if seconds < 1 then 1 else seconds
  }

  /** What the locked row tells a request that read the clock at one instant and is answered at another. */
  function Decide(row: Record, hash: string, at: int, clock: int): Decision
  {
    if row.hash != hash then Conflict
    else if row.status == Completed && row.code.Some? && row.body.Some? then Replay(row.code.value, row.body.value)
    else if row.status == InProgress && row.lockedUntil.Some? && row.lockedUntil.value > at then
      Busy(RetryAfter(row.lockedUntil.value, clock))
    else Execute
  }

  function FromCache(c: Cached, hash: string): Decision
  {
    if c.hash != hash then Conflict else Replay(c.code, c.body)
  }

  function NewRecord(hash: string, at: int): Record
  {
    Record(hash, InProgress, Some(at + LEASE), None, None)
  }

  function Reclaimed(row: Record, at: int): Record
  {
    row.(status := InProgress, lockedUntil := Some(at + LEASE))
  }

  function Closed(row: Record, hash: string, status: Status, code: int, body: Json): Record
  {
    row.(hash := hash, status := status, lockedUntil := None, code := Some(code), body := Some(body))
  }

  // Requests in flight

  /** Where one request stands between the statements of the protocol. */
  datatype Call =
    | Arriving(key: Key, hash: string)
    | Inserting(key: Key, hash: string, at: int)
    | Deciding(key: Key, hash: string, at: int)
    | Running(key: Key, hash: string, lease: int)
    | Caching(key: Key, hash: string, code: int, json: Json)
    | Answered(key: Key, hash: string, decision: Decision)
    | Finished(key: Key, hash: string)

  datatype Sys = Sys(now: int, rows: map<Key, Record>, cache: map<Key, Cached>, calls: map<nat, Call>)

  datatype Step =
    | DoArrive(c: nat, key: Key, hash: string)
    | DoReadCache(c: nat, reachable: bool)
    | DoInsert(c: nat)
    | DoDecide(c: nat)
    | DoFinish(c: nat, code: int, bytes: Bytes)
    | DoStoreCache(c: nat, reachable: bool)
    | DoCrash(c: nat)
    | DoEvict(key: Key)
    | DoTick(now: int)

  function With(s: Sys, c: nat, call: Call): Sys
  {
    s.(calls := s.calls[c := call])
  }

  function ReadCache(s: Sys, c: nat, reachable: bool): Sys
  {
    if c !in s.calls || !s.calls[c].Arriving? then s
    else
      var Arriving(key, hash) := s.calls[c];
      if reachable && key in s.cache then With(s, c, Answered(key, hash, FromCache(s.cache[key], hash)))
      else With(s, c, Inserting(key, hash, s.now))
  }

  function Insert(s: Sys, c: nat): Sys
  {
    if c !in s.calls || !s.calls[c].Inserting? then s
    else
      var Inserting(key, hash, at) := s.calls[c];
      if key in s.rows then With(s, c, Deciding(key, hash, at))
      else With(s.(rows := s.rows[key := NewRecord(hash, at)]), c, Running(key, hash, at + LEASE))
  }

  /** Select for update, then replay, refuse or reclaim; without a row the handler just runs. */
  function DecideUnderLock(s: Sys, c: nat): Sys
  {
    if c !in s.calls || !s.calls[c].Deciding? then s
    else
      var Deciding(key, hash, at) := s.calls[c];
      if key !in s.rows then With(s, c, Running(key, hash, at + LEASE))
      else
        var decision := Decide(s.rows[key], hash, at, s.now);
        if decision != Execute then With(s, c, Answered(key, hash, decision))
        else With(s.(rows := s.rows[key := Reclaimed(s.rows[key], at)]), c, Running(key, hash, at + LEASE))
  }

  /** The handler returned: server errors fail the record, anything else completes it, and
      a body that is not JSON leaves the record as it is. */
  function Finish(s: Sys, c: nat, code: int, bytes: Bytes): Sys
  {
    if c !in s.calls || !s.calls[c].Running? then s
    else
      var Running(key, hash, lease) := s.calls[c];
      match Normalize(bytes)
      case None => With(s, c, Finished(key, hash))
      case Some(json) =>
        var status := if code >= 500 then Failed else Completed;
        var rows := if key in s.rows then s.rows[key := Closed(s.rows[key], hash, status, code, json)] else s.rows;
        With(s.(rows := rows), c, if code >= 500 then Finished(key, hash) else Caching(key, hash, code, json))
  }

  function StoreCache(s: Sys, c: nat, reachable: bool): Sys
  {
    if c !in s.calls || !s.calls[c].Caching? then s
    else
      var Caching(key, hash, code, json) := s.calls[c];
      var cache := if reachable then s.cache[key := Cached(hash, code, json)] else s.cache;
      With(s.(cache := cache), c, Finished(key, hash))
  }

  function Apply(s: Sys, step: Step): Sys
  {
    match step
    case DoArrive(c, key, hash) =>
      if c in s.calls then s
      else if key.merchant == "" || key.client == "" then With(s, c, Answered(key, hash, Bypass))
      else With(s, c, Arriving(key, hash))
    case DoReadCache(c, reachable) => ReadCache(s, c, reachable)
    case DoInsert(c) => Insert(s, c)
    case DoDecide(c) => DecideUnderLock(s, c)
    case DoFinish(c, code, bytes) => Finish(s, c, code, bytes)
    case DoStoreCache(c, reachable) => StoreCache(s, c, reachable)
    case DoCrash(c) => if c in s.calls then With(s, c, Finished(s.calls[c].key, s.calls[c].hash)) else s
    case DoEvict(key) => s.(cache := s.cache - {key})
    case DoTick(now) => if now >= s.now then s.(now := now) else s
  }

  function Exec(s: Sys, steps: seq<Step>): Sys
  {
    if |steps| == 0 then s else Apply(Exec(s, steps[..|steps| - 1]), steps[|steps| - 1])
  }

  lemma OneStep(s: Sys, step: Step)
    ensures Exec(s, [step]) == Apply(s, step)
  {
    assert [step][..0] == [];
  }

  const EMPTY := Sys(0, map[], map[], map[])

  // Every run: a key keeps its request

  predicate HoldsHash(call: Call)
  {
    call.Running? || call.Caching?
  }

  predicate CallOk(s: Sys, call: Call)
  {
    && (call.Inserting? || call.Deciding? ==> call.at <= s.now)
    && (call.Deciding? ==> call.key in s.rows)
    && (HoldsHash(call) ==> call.key in s.rows && s.rows[call.key].hash == call.hash)
  }

  predicate CacheAndLeasesOk(s: Sys)
  {
    && (forall k :: k in s.cache ==> k in s.rows && s.rows[k].hash == s.cache[k].hash)
    && (forall k :: k in s.rows && s.rows[k].lockedUntil.Some? ==> s.rows[k].lockedUntil.value <= s.now + LEASE)
  }

  predicate HashesOk(s: Sys)
  {
    (forall c :: c in s.calls ==> CallOk(s, s.calls[c])) && CacheAndLeasesOk(s)
  }

  /** Rows are never lost and never change their request hash. */
  predicate HashesKept(s: Sys, s': Sys)
  {
    forall k :: k in s.rows ==> k in s'.rows && s'.rows[k].hash == s.rows[k].hash
  }

  /** A step that holds on to every row and its hash, moves no lease past now + LEASE and
      leaves every call it touches in order. */
  lemma StepKeepsRows(s: Sys, step: Step)
    requires HashesOk(s)
    ensures HashesKept(s, Apply(s, step)) && CacheAndLeasesOk(Apply(s, step))
  {
  }

  lemma CallStaysOk(s: Sys, s': Sys, call: Call)
    requires CallOk(s, call) && HashesKept(s, s') && s.now <= s'.now
    ensures CallOk(s', call)
  {
  }

  /** Only the call a step names moves, and it moves to a phase the tables agree with. */
  lemma StepMovesOneCall(s: Sys, step: Step, c: nat)
    requires HashesOk(s) && c in Apply(s, step).calls
    ensures (c in s.calls && Apply(s, step).calls[c] == s.calls[c]) || CallOk(Apply(s, step), Apply(s, step).calls[c])
  {
    if c in s.calls { assert CallOk(s, s.calls[c]); }
  }

  lemma StepKeepsHashes(s: Sys, step: Step)
    requires HashesOk(s)
    ensures HashesOk(Apply(s, step)) && HashesKept(s, Apply(s, step))
  {
    var s' := Apply(s, step);
    StepKeepsRows(s, step);
    assert s.now <= s'.now;
    forall c | c in s'.calls ensures CallOk(s', s'.calls[c]) {
      StepMovesOneCall(s, step, c);
      if c in s.calls && s'.calls[c] == s.calls[c] { CallStaysOk(s, s', s.calls[c]); }
    }
  }

  lemma {:induction false} RunKeepsHashes(s: Sys, steps: seq<Step>)
    requires HashesOk(s)
    ensures HashesOk(Exec(s, steps)) && HashesKept(s, Exec(s, steps))
  {
    if |steps| > 0 {
      RunKeepsHashes(s, steps[..|steps| - 1]);
      StepKeepsHashes(Exec(s, steps[..|steps| - 1]), steps[|steps| - 1]);
    }
  }

  /** In every run, lapsed leases and evictions included, a key's stored request hash never
      changes, and the cache refuses exactly the requests the database would refuse. */
  lemma SameConflictVerdict(steps: seq<Step>, more: seq<Step>, key: Key, hash: string)
    ensures var s, s' := Exec(EMPTY, steps), Exec(Exec(EMPTY, steps), more);
            && (key in s.rows ==> key in s'.rows && s'.rows[key].hash == s.rows[key].hash)
            && (key in s'.cache ==> key in s'.rows)
            && (key in s'.cache ==> (FromCache(s'.cache[key], hash) == Conflict <==>
                                     Decide(s'.rows[key], hash, s'.now, s'.now) == Conflict))
  {
    RunKeepsHashes(EMPTY, steps);
    RunKeepsHashes(Exec(EMPTY, steps), more);
  }

  /** A busy answer asks the client to wait between one and thirty seconds. */
  lemma RetryWithinLease(steps: seq<Step>, key: Key, hash: string, at: int)
    requires key in Exec(EMPTY, steps).rows
    ensures var s := Exec(EMPTY, steps);
            var d := Decide(s.rows[key], hash, at, s.now); d.Busy? ==> 1 <= d.retryAfter <= 30
  {
    RunKeepsHashes(EMPTY, steps);
  }

  /** When a handler has answered, its record is closed with that answer and its lock is gone: failed
      from 500 up, completed below, and untouched when the body is not JSON. */
  lemma FinishLaw(s: Sys, c: nat, code: int, bytes: Bytes)
    requires c in s.calls && s.calls[c].Running? && s.calls[c].key in s.rows
    ensures var s', key := Finish(s, c, code, bytes), s.calls[c].key;
            && key in s'.rows && s'.rows == s.rows[key := s'.rows[key]] && s'.cache == s.cache
            && (bytes == NotJson ==> s'.rows[key] == s.rows[key])
            && (bytes != NotJson ==>
                  s'.rows[key] == Record(s.calls[c].hash, if code < 500 then Completed else Failed, None, Some(code),
                                         Some(if bytes == NoBytes then Json("{}") else bytes.json)))
            && (s'.calls[c].Caching? <==> bytes != NotJson && code < 500)
  {
  }

  // How long a claim holds

  /** The row was claimed at an instant, for thirty seconds. */
  predicate Claimed(s: Sys, key: Key, hash: string, since: int)
  {
    && key in s.rows && s.rows[key].hash == hash && s.rows[key].status == InProgress
    && s.rows[key].lockedUntil == Some(since + 30_000_000_000)
  }

  /** A request that comes to run its handler on a stored record has claimed it when it read the clock. */
  lemma RunningMeansClaimed(s: Sys, step: Step, c: nat, since: int)
    requires c in s.calls && (step == DoInsert(c) || step == DoDecide(c))
    requires (s.calls[c].Inserting? || s.calls[c].Deciding?) && s.calls[c].at == since
    ensures var s' := Apply(s, step);
            s'.calls[c].Running? && (step == DoDecide(c) ==> s.calls[c].key in s.rows) ==>
              Claimed(s', s.calls[c].key, s.calls[c].hash, since)
  {
  }

  /** The step closes the claim: its handler's answer is stored, or a matching request that read the
      clock after the thirty seconds takes over. */
  predicate Releases(s: Sys, step: Step, key: Key, hash: string, since: int)
  {
    || (step.DoFinish? && step.c in s.calls && s.calls[step.c].Running? && s.calls[step.c].key == key && step.bytes != NotJson)
    || (step.DoDecide? && step.c in s.calls && s.calls[step.c].Deciding? && s.calls[step.c].key == key
        && s.calls[step.c].hash == hash && s.calls[step.c].at >= since + 30_000_000_000)
  }

  predicate HeldThroughout(s: Sys, steps: seq<Step>, key: Key, hash: string, since: int)
  {
    |steps| > 0 ==>
      && HeldThroughout(s, steps[..|steps| - 1], key, hash, since)
      && !Releases(Exec(s, steps[..|steps| - 1]), steps[|steps| - 1], key, hash, since)
  }

  lemma {:induction false} ClaimLasts(s: Sys, steps: seq<Step>, key: Key, hash: string, since: int)
    requires Claimed(s, key, hash, since) && HeldThroughout(s, steps, key, hash, since)
    ensures Claimed(Exec(s, steps), key, hash, since)
  {
    if |steps| > 0 {
      ClaimLasts(s, steps[..|steps| - 1], key, hash, since);
    }
  }

  /** Until the claim is closed, a request for the key is a conflict under another hash; under the same
      hash it is told to wait for the whole seconds left, at least one, when it read the clock within
      thirty seconds of the claim, and runs the handler otherwise. */
  lemma BusyWithinLease(s: Sys, steps: seq<Step>, key: Key, hash: string, since: int, c: nat)
    requires Claimed(s, key, hash, since) && HeldThroughout(s, steps, key, hash, since)
    requires var s' := Exec(s, steps); c in s'.calls && s'.calls[c].Deciding? && s'.calls[c].key == key
    ensures var s' := Exec(s, steps);
            var call, left := s'.calls[c], since + 30_000_000_000 - s'.now;
            var call' := Apply(s', DoDecide(c)).calls[c];
            && (call.hash != hash ==> call' == Answered(key, call.hash, Conflict))
            && (call.hash == hash && call.at >= since + 30_000_000_000 ==> call'.Running?)
            && (call.hash == hash && call.at < since + 30_000_000_000 ==>
                  && call'.Answered? && call'.decision.Busy?
                  && var n := call'.decision.retryAfter;
                     if left >= 1_000_000_000 then n * 1_000_000_000 <= left < (n + 1) * 1_000_000_000 else n == 1)
  {
    ClaimLasts(s, steps, key, hash, since);
  }

  // What every run keeps besides

  /** A key that is not passed through. */
  predicate Named(key: Key)
  {
    key.merchant != "" && key.client != ""
  }

  predicate IsCompleted(row: Record, code: int, body: Json)
  {
    row.status == Completed && row.code == Some(code) && row.body == Some(body)
  }

  predicate RowOk(row: Record)
  {
    row.status == Completed ==> row.code.Some? && row.body.Some? && row.code.value < 500
  }

  predicate CallsNamed(s: Sys)
  {
    forall c :: c in s.calls ==> s.calls[c].Answered? || s.calls[c].Finished? || Named(s.calls[c].key)
  }

  predicate RowsOk(s: Sys)
  {
    CallsNamed(s) && forall k :: k in s.rows ==> RowOk(s.rows[k]) && Named(k)
  }

  predicate Sound(s: Sys)
  {
    HashesOk(s) && RowsOk(s)
  }

  lemma StepKeepsCallsNamed(s: Sys, step: Step)
    requires CallsNamed(s)
    ensures CallsNamed(Apply(s, step))
  {
  }

  lemma StepKeepsRowOk(s: Sys, step: Step, k: Key)
    requires RowsOk(s) && k in Apply(s, step).rows
    ensures RowOk(Apply(s, step).rows[k]) && Named(k)
  {
  }

  lemma StepKeepsRowsOk(s: Sys, step: Step)
    requires RowsOk(s)
    ensures RowsOk(Apply(s, step))
  {
    StepKeepsCallsNamed(s, step);
    forall k | k in Apply(s, step).rows ensures RowOk(Apply(s, step).rows[k]) && Named(k) {
      StepKeepsRowOk(s, step, k);
    }
  }

  lemma {:induction false} RunIsSound(s: Sys, steps: seq<Step>)
    requires Sound(s)
    ensures Sound(Exec(s, steps))
  {
    RunKeepsHashes(s, steps);
    if |steps| > 0 {
      RunIsSound(s, steps[..|steps| - 1]);
      StepKeepsRowsOk(Exec(s, steps[..|steps| - 1]), steps[|steps| - 1]);
    }
  }

  // One key: its handlers and their leases

  predicate RunsFor(s: Sys, c: nat, key: Key)
  {
    c in s.calls && s.calls[c].Running? && s.calls[c].key == key
  }

  predicate LeasesHeld(s: Sys, key: Key)
  {
    forall c :: c in s.calls && RunsFor(s, c, key) ==> s.now < s.calls[c].lease
  }

  /** Every handler of the key returns before its lease ends. */
  predicate LeasedRun(s: Sys, steps: seq<Step>, key: Key)
  {
    LeasesHeld(Exec(s, steps), key) && (|steps| > 0 ==> LeasedRun(s, steps[..|steps| - 1], key))
  }

  /** The step reclaims the key's row for another handler. */
  predicate Reclaims(s: Sys, step: Step, key: Key)
  {
    && step.DoDecide? && step.c in s.calls && s.calls[step.c].Deciding? && s.calls[step.c].key == key && key in s.rows
    && Decide(s.rows[key], s.calls[step.c].hash, s.calls[step.c].at, s.now) == Execute
  }

  /** The one move that puts a second handler on a key: a reclaim while the first still runs. */
  predicate TakesOver(s: Sys, step: Step, key: Key)
  {
    Reclaims(s, step, key) && exists d :: d in s.calls && RunsFor(s, d, key)
  }

  /** In no step is the key taken over. */
  predicate CalmRun(s: Sys, steps: seq<Step>, key: Key)
  {
    |steps| > 0 ==>
      && CalmRun(s, steps[..|steps| - 1], key)
      && !TakesOver(Exec(s, steps[..|steps| - 1]), steps[|steps| - 1], key)
  }

  predicate LeaseOk(s: Sys, call: Call)
  {
    && (call.Running? ==> call.key in s.rows && s.rows[call.key].status == InProgress
                          && s.rows[call.key].lockedUntil == Some(call.lease))
    && (call.Caching? ==> call.key in s.rows && IsCompleted(s.rows[call.key], call.code, call.json))
  }

  predicate OneRunner(s: Sys, key: Key)
  {
    forall c, d | c in s.calls && d in s.calls && RunsFor(s, c, key) && RunsFor(s, d, key) :: c == d
  }

  predicate CacheAgrees(s: Sys, key: Key)
  {
    key in s.cache ==> key in s.rows && IsCompleted(s.rows[key], s.cache[key].code, s.cache[key].body)
  }

  predicate KeyOk(s: Sys, key: Key)
  {
    && (forall c :: c in s.calls && s.calls[c].key == key ==> LeaseOk(s, s.calls[c]))
    && OneRunner(s, key) && CacheAgrees(s, key)
  }

  /** Only a row nobody is running for is reclaimed. */
  lemma ReclaimFindsNoRunner(s: Sys, step: Step, key: Key)
    requires Sound(s) && KeyOk(s, key) && LeasesHeld(s, key) && Reclaims(s, step, key)
    ensures !TakesOver(s, step, key) && s.rows[key].status != Completed
  {
    assert CallOk(s, s.calls[step.c]);
    forall d | d in s.calls ensures !RunsFor(s, d, key) {
      assert CallOk(s, s.calls[d]);
    }
  }

  /** As long as nobody has been taken over, a takeover is a reclaim by the same request that
      read the clock at or after the end of a running handler's lease. */
  predicate OutlivesLease(s: Sys, step: Step, key: Key)
  {
    && step.DoDecide? && step.c in s.calls && s.calls[step.c].Deciding? && s.calls[step.c].key == key
    && exists d :: d in s.calls && RunsFor(s, d, key)
                   && s.calls[d].hash == s.calls[step.c].hash && s.calls[d].lease <= s.calls[step.c].at
  }

  lemma TakesOverIff(s: Sys, step: Step, key: Key)
    requires Sound(s) && KeyOk(s, key)
    ensures TakesOver(s, step, key) <==> OutlivesLease(s, step, key)
  {
    if TakesOver(s, step, key) {
      var d :| d in s.calls && RunsFor(s, d, key);
      assert CallOk(s, s.calls[d]) && LeaseOk(s, s.calls[d]);
    }
    if OutlivesLease(s, step, key) {
      var d :| d in s.calls && RunsFor(s, d, key)
               && s.calls[d].hash == s.calls[step.c].hash && s.calls[d].lease <= s.calls[step.c].at;
      assert CallOk(s, s.calls[d]) && LeaseOk(s, s.calls[d]);
    }
  }

  lemma DecideKeepsKeyOk(s: Sys, c: nat, key: Key)
    requires Sound(s) && KeyOk(s, key) && !TakesOver(s, DoDecide(c), key)
    ensures KeyOk(DecideUnderLock(s, c), key)
  {
    if c in s.calls && s.calls[c].Deciding? {
      assert CallOk(s, s.calls[c]);
    }
  }

  lemma InsertKeepsKeyOk(s: Sys, c: nat, key: Key)
    requires Sound(s) && KeyOk(s, key)
    ensures KeyOk(Insert(s, c), key)
  {
    forall d | d in s.calls && RunsFor(s, d, key) ensures key in s.rows {
      assert CallOk(s, s.calls[d]);
    }
  }

  lemma EndKeepsKeyOk(s: Sys, c: nat, code: int, bytes: Bytes, key: Key)
    requires KeyOk(s, key) && RunsFor(s, c, key)
    ensures KeyOk(Finish(s, c, code, bytes), key)
  {
    assert LeaseOk(s, s.calls[c]);
    forall d | d in s.calls && d != c && s.calls[d].key == key ensures !s.calls[d].Running? && !s.calls[d].Caching? {
      assert LeaseOk(s, s.calls[d]);
      assert s.calls[d].Running? ==> RunsFor(s, d, key);
    }
  }

  lemma FinishKeepsKeyOk(s: Sys, c: nat, code: int, bytes: Bytes, key: Key)
    requires KeyOk(s, key)
    ensures KeyOk(Finish(s, c, code, bytes), key)
  {
    if RunsFor(s, c, key) { EndKeepsKeyOk(s, c, code, bytes, key); }
  }

  lemma StoreCacheKeepsKeyOk(s: Sys, c: nat, reachable: bool, key: Key)
    requires KeyOk(s, key)
    ensures KeyOk(StoreCache(s, c, reachable), key)
  {
  }

  lemma ClockAndEvictionKeepKeyOk(s: Sys, step: Step, key: Key)
    requires KeyOk(s, key) && (step.DoEvict? || step.DoTick?)
    ensures KeyOk(Apply(s, step), key)
  {
  }

  lemma QuietCallKeepsKeyOk(s: Sys, c: nat, call: Call, key: Key)
    requires KeyOk(s, key) && !call.Running? && !call.Caching?
    ensures KeyOk(With(s, c, call), key)
  {
  }

  lemma OtherStepsKeepKeyOk(s: Sys, step: Step, key: Key)
    requires KeyOk(s, key) && (step.DoArrive? || step.DoReadCache? || step.DoCrash?)
    ensures KeyOk(Apply(s, step), key)
  {
    var s' := Apply(s, step);
    if s' != s { QuietCallKeepsKeyOk(s, step.c, s'.calls[step.c], key); }
  }

  lemma StepKeepsKeyOk(s: Sys, step: Step, key: Key)
    requires Sound(s) && KeyOk(s, key) && !TakesOver(s, step, key)
    ensures KeyOk(Apply(s, step), key)
  {
    match step
    case DoDecide(c) => DecideKeepsKeyOk(s, c, key);
    case DoInsert(c) => InsertKeepsKeyOk(s, c, key);
    case DoFinish(c, code, bytes) => FinishKeepsKeyOk(s, c, code, bytes, key);
    case DoStoreCache(c, reachable) => StoreCacheKeepsKeyOk(s, c, reachable, key);
    case DoEvict(_) => ClockAndEvictionKeepKeyOk(s, step, key);
    case DoTick(_) => ClockAndEvictionKeepKeyOk(s, step, key);
    case _ => OtherStepsKeepKeyOk(s, step, key);
  }

  lemma {:induction false} CalmRunKeepsKeyOk(s: Sys, steps: seq<Step>, key: Key)
    requires Sound(s) && KeyOk(s, key) && CalmRun(s, steps, key)
    ensures KeyOk(Exec(s, steps), key)
  {
    if |steps| > 0 {
      CalmRunKeepsKeyOk(s, steps[..|steps| - 1], key);
      RunIsSound(s, steps[..|steps| - 1]);
      StepKeepsKeyOk(Exec(s, steps[..|steps| - 1]), steps[|steps| - 1], key);
    }
  }

  /** Handlers that end within their leases are never taken over from. */
  lemma {:induction false} LeasedIsCalm(s: Sys, steps: seq<Step>, key: Key)
    requires Sound(s) && KeyOk(s, key) && LeasedRun(s, steps, key)
    ensures CalmRun(s, steps, key)
  {
    if |steps| > 0 {
      var mid, step := Exec(s, steps[..|steps| - 1]), steps[|steps| - 1];
      LeasedIsCalm(s, steps[..|steps| - 1], key);
      CalmRunKeepsKeyOk(s, steps[..|steps| - 1], key);
      RunIsSound(s, steps[..|steps| - 1]);
      if Reclaims(mid, step, key) {
        ReclaimFindsNoRunner(mid, step, key);
      }
    }
  }

  // One executor per key, exactly

  lemma StepKeepsOneRunnerIff(s: Sys, step: Step, key: Key)
    requires HashesOk(s) && OneRunner(s, key)
    ensures OneRunner(Apply(s, step), key) <==> !TakesOver(s, step, key)
  {
    if step.DoDecide? && step.c in s.calls && s.calls[step.c].Deciding? {
      DecideKeepsOneRunnerIff(s, step.c, key);
    } else if step.DoInsert? && step.c in s.calls && s.calls[step.c].Inserting? {
      InsertKeepsOneRunner(s, step.c, key);
    }
  }

  lemma DecideKeepsOneRunnerIff(s: Sys, c: nat, key: Key)
    requires HashesOk(s) && OneRunner(s, key) && c in s.calls && s.calls[c].Deciding?
    ensures OneRunner(DecideUnderLock(s, c), key) <==> !TakesOver(s, DoDecide(c), key)
  {
    var s' := DecideUnderLock(s, c);
    assert CallOk(s, s.calls[c]);
    if TakesOver(s, DoDecide(c), key) {
      var d :| d in s.calls && RunsFor(s, d, key);
      assert RunsFor(s', c, key) && RunsFor(s', d, key) && c != d;
    }
  }

  lemma InsertKeepsOneRunner(s: Sys, c: nat, key: Key)
    requires HashesOk(s) && OneRunner(s, key) && c in s.calls && s.calls[c].Inserting?
    ensures OneRunner(Insert(s, c), key)
  {
    forall d | d in s.calls && RunsFor(s, d, key) ensures key in s.rows {
      assert CallOk(s, s.calls[d]);
    }
  }

  /** At every point of the run at most one handler is in flight for the key. */
  predicate OneRunnerThroughout(steps: seq<Step>, key: Key)
  {
    OneRunner(Exec(EMPTY, steps), key) && (|steps| > 0 ==> OneRunnerThroughout(steps[..|steps| - 1], key))
  }

  /** In no step does a reclaim outlive a running handler's lease. */
  predicate NoLeaseOutlived(steps: seq<Step>, key: Key)
  {
    |steps| > 0 ==>
      && NoLeaseOutlived(steps[..|steps| - 1], key)
      && !OutlivesLease(Exec(EMPTY, steps[..|steps| - 1]), steps[|steps| - 1], key)
  }

  /** In every run, lapsed leases included, a key has at most one handler in flight throughout
      exactly when no reclaim finds the handler before it still running, which is when none
      reads the clock at or after the end of a running handler's lease. */
  lemma {:induction false} OneExecutorIff(steps: seq<Step>, key: Key)
    ensures OneRunnerThroughout(steps, key) <==> CalmRun(EMPTY, steps, key)
    ensures CalmRun(EMPTY, steps, key) <==> NoLeaseOutlived(steps, key)
  {
    if |steps| > 0 {
      var init, step := steps[..|steps| - 1], steps[|steps| - 1];
      OneExecutorIff(init, key);
      RunIsSound(EMPTY, init);
      if CalmRun(EMPTY, init, key) {
        StepKeepsOneRunnerIff(Exec(EMPTY, init), step, key);
        CalmRunKeepsKeyOk(EMPTY, init, key);
        TakesOverIff(Exec(EMPTY, init), step, key);
      }
    }
  }

  /** If the key's handlers end within their leases, at most one is in flight. */
  lemma AtMostOneExecutor(steps: seq<Step>, key: Key, c: nat, d: nat)
    requires LeasedRun(EMPTY, steps, key)
    requires RunsFor(Exec(EMPTY, steps), c, key) && RunsFor(Exec(EMPTY, steps), d, key)
    ensures c == d
  {
    LeasedIsCalm(EMPTY, steps, key);
    CalmRunKeepsKeyOk(EMPTY, steps, key);
  }

  // The cache in front of the database, exactly

  /** What the database alone would answer right now. */
  function FromDatabase(s: Sys, key: Key, hash: string): Decision
  {
    if key in s.rows then Decide(s.rows[key], hash, s.now, s.now) else Execute
  }

  /** Whatever is asked about the key, the cache gives the database's answer. */
  ghost predicate Transparent(s: Sys, key: Key)
  {
    key in s.cache ==> forall hash :: FromCache(s.cache[key], hash) == FromDatabase(s, key, hash)
  }

  lemma TransparentIff(s: Sys, key: Key)
    requires HashesOk(s)
    ensures Transparent(s, key) <==> CacheAgrees(s, key)
  {
    if key in s.cache && Transparent(s, key) {
      assert FromCache(s.cache[key], s.cache[key].hash) == FromDatabase(s, key, s.cache[key].hash);
    }
  }

  /** The two moves that part cache and database: a handler ends with another answer than the
      one already cached, or caches an answer the row does not hold any more. */
  predicate Splits(s: Sys, step: Step, key: Key)
  {
    match step
    case DoFinish(c, code, bytes) =>
      && RunsFor(s, c, key) && key in s.cache && bytes != NotJson
      && (code >= 500 || code != s.cache[key].code || Normalize(bytes) != Some(s.cache[key].body))
    case DoStoreCache(c, reachable) =>
      && reachable && c in s.calls && s.calls[c].Caching? && s.calls[c].key == key
      && !(key in s.rows && IsCompleted(s.rows[key], s.calls[c].code, s.calls[c].json))
    case _ => false
  }

  predicate SplitFree(steps: seq<Step>, key: Key)
  {
    |steps| > 0 ==>
      && SplitFree(steps[..|steps| - 1], key)
      && !Splits(Exec(EMPTY, steps[..|steps| - 1]), steps[|steps| - 1], key)
  }

  ghost predicate TransparentThroughout(steps: seq<Step>, key: Key)
  {
    Transparent(Exec(EMPTY, steps), key) && (|steps| > 0 ==> TransparentThroughout(steps[..|steps| - 1], key))
  }

  lemma StepAgreesIff(s: Sys, step: Step, key: Key)
    requires HashesOk(s) && CacheAgrees(s, key)
    ensures CacheAgrees(Apply(s, step), key) <==> !Splits(s, step, key)
  {
    match step
    case DoFinish(c, _, _) => if c in s.calls { assert CallOk(s, s.calls[c]); }
    case DoStoreCache(c, _) => if c in s.calls { assert CallOk(s, s.calls[c]); }
    case _ =>
  }

  /** In every run, lapsed leases included, Start with the cache answers like Start without it
      at every point exactly when no handler ends with another answer than the cached one and
      none caches an answer its row has lost. */
  lemma {:induction false} CacheIsTransparentIff(steps: seq<Step>, key: Key)
    ensures TransparentThroughout(steps, key) <==> SplitFree(steps, key)
  {
    RunKeepsHashes(EMPTY, steps);
    TransparentIff(Exec(EMPTY, steps), key);
    if |steps| > 0 {
      var init := steps[..|steps| - 1];
      CacheIsTransparentIff(init, key);
      RunKeepsHashes(EMPTY, init);
      if TransparentThroughout(init, key) {
        TransparentIff(Exec(EMPTY, init), key);
        StepAgreesIff(Exec(EMPTY, init), steps[|steps| - 1], key);
      }
    }
  }

  lemma {:induction false} CalmIsSplitFree(steps: seq<Step>, key: Key)
    requires CalmRun(EMPTY, steps, key)
    ensures SplitFree(steps, key)
  {
    if |steps| > 0 {
      var init, step := steps[..|steps| - 1], steps[|steps| - 1];
      CalmIsSplitFree(init, key);
      CalmRunKeepsKeyOk(EMPTY, init, key);
      CalmRunKeepsKeyOk(EMPTY, steps, key);
      RunKeepsHashes(EMPTY, init);
      StepAgreesIff(Exec(EMPTY, init), step, key);
    }
  }

  /** In particular as long as the key is never taken over. */
  lemma CacheIsTransparent(steps: seq<Step>, key: Key, hash: string)
    requires CalmRun(EMPTY, steps, key) && key in Exec(EMPTY, steps).cache
    ensures FromCache(Exec(EMPTY, steps).cache[key], hash) == FromDatabase(Exec(EMPTY, steps), key, hash)
  {
    CalmIsSplitFree(steps, key);
    CacheIsTransparentIff(steps, key);
  }

  // Once completed, replayed for ever

  function SettledAnswer(row: Record, hash: string): Decision
    requires row.code.Some? && row.body.Some?
  {
    if row.hash == hash then Replay(row.code.value, row.body.value) else Conflict
  }

  /** Requests answered after the completion. */
  predicate AnsweredSince(s: Sys, s': Sys, c: nat, key: Key)
  {
    && c in s'.calls && s'.calls[c].Answered? && s'.calls[c].key == key && s'.calls[c].decision != Bypass
    && !(c in s.calls && s.calls[c].Answered?)
  }

  /** Nothing in flight can disturb the answer: no handler runs for the key, and whatever is
      cached or about to be cached is the row's own answer. */
  predicate Sealed(s: Sys, key: Key)
  {
    && key in s.rows && s.rows[key].status == Completed && CacheAgrees(s, key)
    && (forall c :: c in s.calls ==> !RunsFor(s, c, key))
    && (forall c :: c in s.calls && s.calls[c].key == key && s.calls[c].Caching? ==>
          IsCompleted(s.rows[key], s.calls[c].code, s.calls[c].json))
  }

  /** The row stands, nobody runs for it, and a request answered since got its answer. */
  predicate StillReplayed(s: Sys, s': Sys, key: Key, c: nat)
    requires key in s.rows && s.rows[key].code.Some? && s.rows[key].body.Some?
  {
    && key in s'.rows && s'.rows[key] == s.rows[key]
    && (forall d :: d in s'.calls ==> !RunsFor(s', d, key))
    && (AnsweredSince(s, s', c, key) ==> s'.calls[c].decision == SettledAnswer(s.rows[key], s'.calls[c].hash))
  }

  ghost predicate ReplayedForEver(s: Sys, key: Key)
    requires key in s.rows && s.rows[key].code.Some? && s.rows[key].body.Some?
  {
    forall more, c :: StillReplayed(s, Exec(s, more), key, c)
  }

  lemma SealedRowStays(s: Sys, step: Step, key: Key)
    requires Sealed(s, key) && RowOk(s.rows[key])
    ensures key in Apply(s, step).rows && Apply(s, step).rows[key] == s.rows[key] && CacheAgrees(Apply(s, step), key)
  {
  }

  lemma SealedCallsStay(s: Sys, step: Step, key: Key, c: nat)
    requires Sealed(s, key) && RowOk(s.rows[key]) && c in Apply(s, step).calls
    ensures !RunsFor(Apply(s, step), c, key)
    ensures Apply(s, step).calls[c].key == key && Apply(s, step).calls[c].Caching? ==>
              IsCompleted(s.rows[key], Apply(s, step).calls[c].code, Apply(s, step).calls[c].json)
  {
  }

  lemma SealedStep(s: Sys, step: Step, key: Key)
    requires Sound(s) && Sealed(s, key)
    ensures Sealed(Apply(s, step), key) && Apply(s, step).rows[key] == s.rows[key]
  {
    assert RowOk(s.rows[key]);
    SealedRowStays(s, step, key);
    forall c | c in Apply(s, step).calls
      ensures !RunsFor(Apply(s, step), c, key)
      ensures Apply(s, step).calls[c].key == key && Apply(s, step).calls[c].Caching? ==>
                IsCompleted(s.rows[key], Apply(s, step).calls[c].code, Apply(s, step).calls[c].json)
    {
      SealedCallsStay(s, step, key, c);
    }
  }

  lemma AnswerIsSettled(s: Sys, step: Step, key: Key, c: nat)
    requires Sound(s) && Sealed(s, key) && s.rows[key].code.Some? && s.rows[key].body.Some?
    ensures AnsweredSince(s, Apply(s, step), c, key) ==>
              Apply(s, step).calls[c].decision == SettledAnswer(s.rows[key], Apply(s, step).calls[c].hash)
  {
  }

  /** An answer, once given, is not taken back unless its process dies. */
  lemma AnswersStay(s: Sys, step: Step, c: nat)
    ensures c in s.calls && s.calls[c].Answered? && c in Apply(s, step).calls && Apply(s, step).calls[c].Answered?
            ==> Apply(s, step).calls[c] == s.calls[c]
  {
  }

  lemma {:induction false} SealedForEver(s: Sys, more: seq<Step>, key: Key, c: nat)
    requires Sound(s) && Sealed(s, key) && s.rows[key].code.Some? && s.rows[key].body.Some?
    ensures Sealed(Exec(s, more), key) && StillReplayed(s, Exec(s, more), key, c)
  {
    if |more| > 0 {
      var mid, step := Exec(s, more[..|more| - 1]), more[|more| - 1];
      SealedForEver(s, more[..|more| - 1], key, c);
      RunIsSound(s, more[..|more| - 1]);
      SealedStep(mid, step, key);
      AnswerIsSettled(mid, step, key, c);
      AnswersStay(mid, step, c);
    }
  }

  lemma StepThen(s: Sys, steps: seq<Step>, step: Step)
    ensures Exec(s, steps + [step]) == Apply(Exec(s, steps), step)
  {
    assert (steps + [step])[..|steps|] == steps;
  }

  lemma {:induction false} FreshCall(calls: map<nat, Call>) returns (c: nat)
    ensures c !in calls && forall d :: d in calls ==> d < c
    decreases |calls|
  {
    if calls == map[] {
      c := 0;
    } else {
      var d :| d in calls;
      var below := FreshCall(calls - {d});
      c := if d < below then below else d + 1;
      assert forall k :: k in calls ==> k == d || k in calls - {d};
    }
  }

  /** A handler still running may yet fail the completed row. */
  lemma RunnerDisturbs(s: Sys, key: Key, d: nat)
    requires Sound(s) && key in s.rows && s.rows[key].status == Completed && s.rows[key].code.Some? && s.rows[key].body.Some?
    requires RunsFor(s, d, key)
    ensures !ReplayedForEver(s, key)
  {
    OneStep(s, DoFinish(d, 500, NoBytes));
    assert !StillReplayed(s, Exec(s, [DoFinish(d, 500, NoBytes)]), key, d);
  }

  /** A cached answer other than the row's is what the next request gets. */
  lemma CacheDisturbs(s: Sys, key: Key, more: seq<Step>)
    requires Named(key) && key in Exec(s, more).cache && s.calls.Keys <= Exec(s, more).calls.Keys
    requires key in s.rows && s.rows[key].code.Some? && s.rows[key].body.Some?
    requires s.rows[key].hash == Exec(s, more).cache[key].hash
    requires s.rows[key].code.value != Exec(s, more).cache[key].code || s.rows[key].body.value != Exec(s, more).cache[key].body
    ensures !ReplayedForEver(s, key)
  {
    var s1, hash := Exec(s, more), s.rows[key].hash;
    var c := FreshCall(s1.calls);
    StepThen(s, more, DoArrive(c, key, hash));
    StepThen(s, more + [DoArrive(c, key, hash)], DoReadCache(c, true));
    var steps := more + [DoArrive(c, key, hash)] + [DoReadCache(c, true)];
    assert Apply(s1, DoArrive(c, key, hash)) == With(s1, c, Arriving(key, hash));
    assert Exec(s, steps).calls[c] == Answered(key, hash, FromCache(s1.cache[key], hash));
    assert !StillReplayed(s, Exec(s, steps), key, c);
  }

  lemma CacheWriterDisturbs(s: Sys, key: Key, d: nat)
    requires Sound(s) && key in s.rows && s.rows[key].status == Completed && s.rows[key].code.Some? && s.rows[key].body.Some?
    requires d in s.calls && s.calls[d].Caching? && s.calls[d].key == key
    requires !IsCompleted(s.rows[key], s.calls[d].code, s.calls[d].json)
    ensures !ReplayedForEver(s, key)
  {
    assert CallOk(s, s.calls[d]);
    OneStep(s, DoStoreCache(d, true));
    CacheDisturbs(s, key, [DoStoreCache(d, true)]);
  }

  /** In every reached state, whatever happened before, a completed key is replayed with its
      code and body in every continuation exactly when nothing in flight can disturb it. */
  lemma ReplayedForEverIff(steps: seq<Step>, key: Key)
    requires key in Exec(EMPTY, steps).rows && Exec(EMPTY, steps).rows[key].status == Completed
    ensures Exec(EMPTY, steps).rows[key].code.Some? && Exec(EMPTY, steps).rows[key].body.Some?
    ensures ReplayedForEver(Exec(EMPTY, steps), key) <==> Sealed(Exec(EMPTY, steps), key)
  {
    var s := Exec(EMPTY, steps);
    RunIsSound(EMPTY, steps);
    assert RowOk(s.rows[key]);
    if Sealed(s, key) {
      forall more, c ensures StillReplayed(s, Exec(s, more), key, c) {
        SealedForEver(s, more, key, c);
      }
    } else if d :| d in s.calls && RunsFor(s, d, key) {
      RunnerDisturbs(s, key, d);
    } else if d :| d in s.calls && s.calls[d].key == key && s.calls[d].Caching?
                   && !IsCompleted(s.rows[key], s.calls[d].code, s.calls[d].json) {
      CacheWriterDisturbs(s, key, d);
    } else {
      assert Exec(s, []) == s;
      CacheDisturbs(s, key, []);
    }
  }

  /** In particular, if the key was never taken over until Complete has updated its row, then
      whatever follows, no handler runs for it again and every later matching request replays
      that code and body. */
  lemma CompletedIsReplayed(steps: seq<Step>, more: seq<Step>, key: Key, c: nat)
    requires CalmRun(EMPTY, steps, key)
    requires key in Exec(EMPTY, steps).rows && Exec(EMPTY, steps).rows[key].status == Completed
    ensures Exec(EMPTY, steps).rows[key].code.Some? && Exec(EMPTY, steps).rows[key].body.Some?
    ensures StillReplayed(Exec(EMPTY, steps), Exec(Exec(EMPTY, steps), more), key, c)
  {
    var s := Exec(EMPTY, steps);
    CalmRunKeepsKeyOk(EMPTY, steps, key);
    forall d | d in s.calls ensures !RunsFor(s, d, key) {
      if s.calls[d].key == key { assert LeaseOk(s, s.calls[d]); }
    }
    ReplayedForEverIff(steps, key);
  }
}
