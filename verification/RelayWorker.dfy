/** The outbox table updated in place by writers and by the relay's publishing loop. */
module RelayWorker {
  import opened Common
  import opened Relay

  /** What one call of the publisher reports, what the broker kept, and whether the caller gave up waiting. */
  datatype Attempt = Attempt(acked: bool, arrived: bool, cancelled: bool)

  /** Whether one of the next n attempts is acknowledged before the caller gives up; a
      broker that has no more answers scripted acknowledges. */
  predicate Reaches(script: seq<Attempt>, n: nat)
  {
    n > 0 && (script == [] || script[0].acked || (!script[0].cancelled && Reaches(script[1..], n - 1)))
  }

  predicate AllAcked(script: seq<Attempt>)
  {
    forall a :: a in script ==> a.acked
  }

  lemma ExecSnoc(s: Sys, steps: seq<Step>, step: Step)
    ensures Exec(s, steps + [step]) == Apply(Exec(s, steps), step)
  {
    assert (steps + [step])[..|steps|] == steps;
  }

  lemma Then(s: Sys, step: Step, rest: seq<Step>) returns (steps: seq<Step>)
    ensures Exec(s, steps) == Exec(Apply(s, step), rest)
  {
    steps := [step] + rest;
    ExecAppend(s, [step], rest);
    assert [step][..0] == [];
  }

  /** The batch of one relay is set; those of the others are as they were. */
  predicate Sets(batches: map<nat, Batch>, batches': map<nat, Batch>, r: nat, b: Batch)
  {
    r in batches' && batches'[r] == b && batches' - {r} == batches - {r}
  }

  lemma SetsOne(batches: map<nat, Batch>, r: nat, b: Batch)
    ensures Sets(batches, batches[r := b], r, b)
  {
    assert batches[r := b] - {r} == batches - {r};
  }

  lemma SetBack(batches: map<nat, Batch>, batches': map<nat, Batch>, r: nat)
    requires r !in batches && batches' - {r} == batches - {r}
    ensures batches' - {r} == batches
  {
    assert batches - {r} == batches;
  }

  /** A batch all of whose rows are marked has delivered them all. */
  lemma CommitDelivers(s: Sys, steps: seq<Step>, r: nat)
    requires Inv(s) && r in Exec(s, steps).batches
    requires var b := Exec(s, steps).batches[r]; b.pos == |b.ids|
    ensures var s' := Exec(s, steps); forall id :: id in s'.batches[r].ids ==> Delivered(Commit(s', r), id)
  {
    RunKeepsInv(s, steps);
    var s' := Exec(s, steps);
    assert BatchOk(s', s'.batches[r]);
    forall id | id in s'.batches[r].ids ensures Delivered(Commit(s', r), id) {
      var i :| 0 <= i < |s'.batches[r].ids| && s'.batches[r].ids[i] == id;
      assert Delivered(s', s'.batches[r].ids[i]);
    }
  }

  /** Nil when no resolver is configured; an event type it does not know is an error. */
  type Resolver = Option<map<string, seq<SchemaVersion>>>

  predicate Resolves(resolver: Resolver, eventType: string)
  {
    resolver.Some? ==> eventType in resolver.value
  }

  /** The versions the resolver lists for an event type. */
  function Listed(resolver: Resolver, eventType: string): seq<SchemaVersion>
  {
    if resolver.Some? && eventType in resolver.value then resolver.value[eventType] else []
  }

  /** A version consumers are promised: a listed one, or the first one where none is listed. */
  predicate Promised(resolver: Resolver, eventType: string, v: SchemaVersion)
  {
    v in Listed(resolver, eventType) || (Listed(resolver, eventType) == [] && v == SchemaVersion(eventType, "1.0.0"))
  }

  /** The envelope tells of the row, on its event type's topic and under its merchant's key. */
  predicate Tells(e: Envelope, id: string, rec: Record)
  {
    && e.id == id && e.record == rec && e.key == rec.merchant
    && (e.topic == "paygate.orders" <==> "order." <= rec.eventType)
    && (e.topic == "paygate.payments" <==> "payment." <= rec.eventType)
    && (e.topic == "paygate.refunds" <==> "refund." <= rec.eventType)
    && (e.topic == "paygate.settlements" <==> "settlement." <= rec.eventType)
    && e.topic in {"paygate.orders", "paygate.payments", "paygate.refunds", "paygate.settlements", "paygate.internal"}
  }

  lemma PrefixesExclude(t: string)
    ensures !("order." <= t && "payment." <= t) && !("order." <= t && "refund." <= t) && !("order." <= t && "settlement." <= t)
    ensures !("payment." <= t && "refund." <= t) && !("payment." <= t && "settlement." <= t)
    ensures !("refund." <= t && "settlement." <= t)
  {
    assert "order." <= t ==> t[0] == 'o';
    assert "payment." <= t ==> t[0] == 'p';
    assert "refund." <= t ==> t[0] == 'r';
    assert "settlement." <= t ==> t[0] == 's';
  }

  /** Every promised version has its envelope among those built. */
  lemma PromisedIsBuilt(resolver: Resolver, id: string, rec: Record, v: SchemaVersion) returns (e: Envelope)
    requires Promised(resolver, rec.eventType, v)
    ensures e in Envelopes(id, rec, Listed(resolver, rec.eventType)) && e.schema == v && Tells(e, id, rec)
  {
    var versions := Listed(resolver, rec.eventType);
    var i := 0;
    if versions != [] {
      i :| 0 <= i < |versions| && versions[i] == v;
    }
    e := Envelopes(id, rec, versions)[i];
    EnvelopeTells(id, rec, v);
  }

  lemma EnvelopeTells(id: string, rec: Record, schema: SchemaVersion)
    ensures Tells(EnvelopeFor(id, rec, schema), id, rec)
  {
    PrefixesExclude(rec.eventType);
  }

  method ResolvePublishSchemas(resolver: Resolver, eventType: string) returns (schemas: Option<seq<SchemaVersion>>)
    ensures schemas.Some? <==> Resolves(resolver, eventType)
    ensures schemas.Some? ==> schemas.value == PublishSchemas(eventType, Listed(resolver, eventType))
    ensures schemas.Some? && Listed(resolver, eventType) != [] ==> schemas.value == Listed(resolver, eventType)
    ensures schemas.Some? && Listed(resolver, eventType) == [] ==> schemas.value == [SchemaVersion(eventType, "1.0.0")]
  {
    if resolver == None {
      return Some([SchemaVersion(eventType, "1.0.0")]);
    }
    if eventType !in resolver.value {
      return None;
    }
    var versions := resolver.value[eventType];
    if |versions| == 0 {
      return Some([SchemaVersion(eventType, "1.0.0")]);
    }
    schemas := Some(versions);
  }

  method BuildPublishedEnvelopes(resolver: Resolver, id: string, rec: Record) returns (r: Option<seq<Envelope>>)
    ensures r.Some? <==> Resolves(resolver, rec.eventType)
    ensures r.Some? ==> r.value == Envelopes(id, rec, Listed(resolver, rec.eventType))
    ensures r.Some? && Listed(resolver, rec.eventType) != [] ==>
              && |r.value| == |Listed(resolver, rec.eventType)|
              && forall i :: 0 <= i < |r.value| ==> r.value[i].schema == Listed(resolver, rec.eventType)[i]
    ensures r.Some? && Listed(resolver, rec.eventType) == [] ==>
              |r.value| == 1 && r.value[0].schema == SchemaVersion(rec.eventType, "1.0.0")
    ensures r.Some? ==> forall e :: e in r.value ==> Tells(e, id, rec)
  {
    var schemas := ResolvePublishSchemas(resolver, rec.eventType);
    if schemas == None {
      return None;
    }
    var topic := TopicForEvent(rec.eventType);
    var envelopes: seq<Envelope> := [];
    for i := 0 to |schemas.value|
      invariant |envelopes| == i
      invariant forall k :: 0 <= k < i ==> envelopes[k] == EnvelopeFor(id, rec, schemas.value[k])
      invariant forall e :: e in envelopes ==> Tells(e, id, rec)
    {
      EnvelopeTells(id, rec, schemas.value[i]);
      envelopes := envelopes + [Envelope(id, topic, rec.merchant, rec, schemas.value[i])];
    }
    r := Some(envelopes);
  }

  class Worker {
    var now: int
    var rows: map<string, Row>
    var batches: map<nat, Batch>
    var log: seq<Envelope>
    ghost var written: map<string, Record>
    ghost var built: map<string, seq<Envelope>>

    ghost function State(): Sys
      reads this
    {
      Sys(now, rows, batches, log, written, built)
    }

    constructor ()
      ensures State() == EMPTY
    {
      now, rows, batches, log, written, built := 0, map[], map[], [], map[], map[];
    }

    /** The table refuses only an id it still holds; with an id never used before this is one step of a run. */
    method WriteTx(id: string, rec: Record) returns (ok: bool)
      modifies this`rows, this`written
      ensures ok <==> id !in old(rows)
      ensures ok ==> State() == old(State()).(rows := old(rows)[id := Row(rec, None)], written := old(written)[id := rec])
      ensures ok && id !in old(written) ==> State() == Write(old(State()), id, rec)
      ensures !ok ==> State() == old(State())
    {
      if id in rows {
        return false;
      }
      rows := rows[id := Row(rec, None)];
      written := written[id := rec];
      ok := true;
    }

    method CleanupPublished(olderThan: int) returns (n: int)
      modifies this`rows
      ensures State() == Apply(old(State()), DoCleanup(olderThan))
      ensures n == |old(rows)| - |rows|
      ensures forall id :: id in rows ==> id in old(rows) && rows[id] == old(rows)[id]
      ensures forall id :: id in old(rows) ==>
                (id !in rows <==> old(rows)[id].published.Some? && old(rows)[id].published.value < now - olderThan)
    {
      var before := |rows|;
      rows := map id | id in rows && !(rows[id].published.Some? && rows[id].published.value < now - olderThan) :: rows[id];
      n := before - |rows|;
    }

    method Oldest(candidates: set<string>) returns (best: string)
      requires candidates != {} && forall id :: id in candidates ==> id in rows
      ensures best in candidates
      ensures forall id :: id in candidates ==> CreatedAt(rows, best) <= CreatedAt(rows, id)
    {
      best :| best in candidates;
      var rest := candidates - {best};
      while rest != {}
        invariant rest <= candidates && best in candidates
        invariant forall id :: id in candidates - rest ==> CreatedAt(rows, best) <= CreatedAt(rows, id)
        decreases |rest|
      {
        var id :| id in rest;
        if rows[id].record.createdAt < rows[best].record.createdAt {
          best := id;
        }
        rest := rest - {id};
      }
    }

    method SelectBatch(limit: nat) returns (ids: seq<string>)
      ensures IsBatch(rows, batches, limit, ids)
    {
      var all := set id | id in rows && Selectable(rows, batches, id);
      var rest := all;
      ids := [];
      while |ids| < limit && rest != {}
        invariant |ids| <= limit && Distinct(ids) && Ascending(rows, ids)
        invariant forall id :: id in all <==> id in ids || id in rest
        invariant forall id :: id in ids ==> id !in rest
        invariant forall id, other :: id in ids && other in rest ==> CreatedAt(rows, id) <= CreatedAt(rows, other)
        decreases |rest|
      {
        var next := Oldest(rest);
        ids := ids + [next];
        rest := rest - {next};
      }
    }

    /** At most three attempts; the answers of the broker are taken from the script. */
    method PublishWithRetry(r: nat, script: seq<Attempt>) returns (ok: bool, rest: seq<Attempt>, ghost steps: seq<Step>)
      requires Publishing(State(), r)
      modifies this`batches, this`log
      ensures State() == Exec(old(State()), steps)
      ensures ok <==> Reaches(script, 3)
      ensures AllAcked(script) ==> AllAcked(rest)
      ensures ok ==> old(batches[r].todo.value)[0] in log
      ensures Sets(old(batches), batches, r,
                   if ok then old(batches)[r].(todo := Some(old(batches[r].todo.value)[1..])) else old(batches)[r])
    {
      steps := [];
      rest := script;
      for attempt := 0 to 3
        invariant batches == old(batches) && now == old(now) && rows == old(rows)
        invariant written == old(written) && built == old(built)
        invariant State() == Exec(old(State()), steps)
        invariant Reaches(script, 3) <==> Reaches(rest, 3 - attempt)
        invariant AllAcked(script) ==> AllAcked(rest)
      {
        var answer := if rest == [] then Attempt(true, true, false) else rest[0];
        rest := if rest == [] then [] else rest[1..];
        var envelope := batches[r].todo.value[0];
        ExecSnoc(old(State()), steps, DoPublish(r, answer.acked, answer.arrived));
        steps := steps + [DoPublish(r, answer.acked, answer.arrived)];
        if answer.acked || answer.arrived {
          log := log + [envelope];
        }
        if answer.acked {
          SetsOne(batches, r, batches[r].(todo := Some(batches[r].todo.value[1..])));
          batches := batches[r := batches[r].(todo := Some(batches[r].todo.value[1..]))];
          return true, rest, steps;
        }
        assert batches[r := batches[r]] == batches;
        if answer.cancelled {
          return false, rest, steps;
        }
      }
      ok := false;
    }

    /** Publish what is left of the row in hand. */
    method PublishEnvelopes(r: nat, script: seq<Attempt>) returns (ok: bool, rest: seq<Attempt>, ghost steps: seq<Step>)
      requires r in batches && batches[r].todo.Some?
      modifies this`batches, this`log
      ensures State() == Exec(old(State()), steps)
      ensures r in batches && batches - {r} == old(batches) - {r}
      ensures ok ==> batches[r] == old(batches)[r].(todo := Some([]))
      ensures AllAcked(script) ==> ok && AllAcked(rest)
    {
      rest, steps := script, [];
      var envelopes := batches[r].todo.value;
      for j := 0 to |envelopes|
        invariant State() == Exec(old(State()), steps)
        invariant Sets(old(batches), batches, r, old(batches)[r].(todo := Some(envelopes[j..])))
        invariant AllAcked(script) ==> AllAcked(rest)
      {
        ghost var more;
        ok, rest, more := PublishWithRetry(r, rest);
        ExecAppend(old(State()), steps, more);
        steps := steps + more;
        if !ok {
          return;
        }
      }
      assert envelopes[|envelopes|..] == [];
      ok := true;
    }

    /** The envelopes last built for the row are those its resolver asks for. */
    ghost predicate BuiltFor(id: string, resolver: Resolver)
      reads this`rows, this`built
    {
      && id in rows && id in built
      && built[id] == Envelopes(id, rows[id].record, Listed(resolver, rows[id].record.eventType))
    }

    /** Build the envelopes of the row in hand. */
    method BuildRow(r: nat, resolver: Resolver) returns (ok: bool, ghost step: Step)
      requires Building(State(), r) && batches[r].ids[batches[r].pos] in rows
      modifies this`batches, this`built
      ensures ok <==> Resolves(resolver, rows[old(batches)[r].ids[old(batches)[r].pos]].record.eventType)
      ensures ok ==> State() == Apply(old(State()), step) && BuiltFor(old(batches)[r].ids[old(batches)[r].pos], resolver)
      ensures forall k :: k in old(batches)[r].ids && old(BuiltFor(k, resolver)) ==> BuiltFor(k, resolver)
      ensures ok ==> r in batches && batches[r].todo.Some? && Sets(old(batches), batches, r, old(batches)[r].(todo := batches[r].todo))
      ensures !ok ==> State() == old(State())
    {
      var b := batches[r];
      var id := b.ids[b.pos];
      var envelopes := BuildPublishedEnvelopes(resolver, id, rows[id].record);
      ok := envelopes.Some?;
      step := DoMark(r);
      if ok {
        step := DoBuild(r, Listed(resolver, rows[id].record.eventType));
        SetsOne(batches, r, b.(todo := envelopes));
        batches := batches[r := b.(todo := envelopes)];
        built := built[id := envelopes.value];
      }
    }

    method MarkRow(r: nat, ghost start: Sys, ghost steps: seq<Step>) returns (ghost marked: seq<Step>)
      requires r in batches && batches[r].todo == Some([]) && State() == Exec(start, steps)
      modifies this`batches
      ensures State() == Exec(start, marked)
      ensures Sets(old(batches), batches, r, old(batches)[r].(pos := old(batches)[r].pos + 1, todo := None))
    {
      ExecSnoc(start, steps, DoMark(r));
      SetsOne(batches, r, batches[r].(pos := batches[r].pos + 1, todo := None));
      marked := steps + [DoMark(r)];
      batches := batches[r := batches[r].(pos := batches[r].pos + 1, todo := None)];
    }

    /** Build and publish the row in hand, then mark it inside the transaction. */
    method PublishRow(r: nat, resolver: Resolver, script: seq<Attempt>) returns (ok: bool, rest: seq<Attempt>, ghost steps: seq<Step>)
      requires Building(State(), r) && batches[r].ids[batches[r].pos] in rows
      modifies this`batches, this`log, this`built
      ensures State() == Exec(old(State()), steps)
      ensures r in batches && batches - {r} == old(batches) - {r}
      ensures ok ==> batches[r] == old(batches)[r].(pos := old(batches)[r].pos + 1)
      ensures ok ==> BuiltFor(old(batches)[r].ids[old(batches)[r].pos], resolver)
      ensures forall k :: k in old(batches)[r].ids && old(BuiltFor(k, resolver)) ==> BuiltFor(k, resolver)
      ensures AllAcked(script) ==> AllAcked(rest)
      ensures AllAcked(script) && Resolves(resolver, rows[old(batches)[r].ids[old(batches)[r].pos]].record.eventType) ==> ok
    {
      ghost var build;
      ok, build := BuildRow(r, resolver);
      if !ok {
        return false, script, [];
      }
      ok, rest, steps := PublishEnvelopes(r, script);
      steps := Then(old(State()), build, steps);
      if ok {
        steps := MarkRow(r, old(State()), steps);
      }
    }

    /** The rows of the open batch, in order, until one fails. */
    method PublishRows(r: nat, resolver: Resolver, script: seq<Attempt>) returns (ok: bool, ghost steps: seq<Step>)
      requires r in batches && batches[r].pos == 0 && batches[r].todo == None
      requires forall id :: id in batches[r].ids ==> id in rows
      modifies this`batches, this`log, this`built
      ensures State() == Exec(old(State()), steps)
      ensures r in batches && batches - {r} == old(batches) - {r}
      ensures ok ==> batches[r].pos == |batches[r].ids| && batches[r].ids == old(batches)[r].ids
      ensures ok ==> batches[r].startedAt == old(batches)[r].startedAt
      ensures ok ==> forall id :: id in old(batches)[r].ids ==> BuiltFor(id, resolver)
      ensures AllAcked(script) && (forall id :: id in old(batches)[r].ids ==> Resolves(resolver, rows[id].record.eventType)) ==> ok
    {
      var records := batches[r].ids;
      var rest := script;
      steps := [];
      for i := 0 to |records|
        invariant State() == Exec(old(State()), steps)
        invariant Sets(old(batches), batches, r, old(batches)[r].(pos := i))
        invariant forall k :: 0 <= k < i ==> BuiltFor(records[k], resolver)
        invariant AllAcked(script) ==> AllAcked(rest)
      {
        ghost var more;
        assert records[i] in records;
        ok, rest, more := PublishRow(r, resolver, rest);
        ExecAppend(old(State()), steps, more);
        steps := steps + more;
        if !ok {
          return;
        }
      }
      ok := true;
    }

    method OpenBatch(r: nat, limit: nat) returns (ids: seq<string>)
      requires r !in batches
      modifies this`batches
      ensures IsBatch(rows, old(batches), limit, ids)
      ensures Sets(old(batches), batches, r, Batch(ids, 0, None, now))
      ensures State() == Apply(old(State()), DoOpen(r, limit, ids))
    {
      ids := SelectBatch(limit);
      SetsOne(batches, r, Batch(ids, 0, None, now));
      batches := batches[r := Batch(ids, 0, None, now)];
    }

    method CommitBatch(r: nat, ghost start: Sys, ghost steps: seq<Step>) returns (ghost done: seq<Step>)
      requires r in batches && batches[r].pos == |batches[r].ids| && State() == Exec(start, steps) && Inv(start)
      modifies this`batches, this`rows
      ensures State() == Exec(start, done)
      ensures batches == old(batches) - {r} && rows == MarkedRows(old(rows), old(batches)[r].ids, old(batches)[r].startedAt)
      ensures forall id :: id in old(batches)[r].ids ==> Delivered(State(), id)
    {
      CommitDelivers(start, steps, r);
      ExecSnoc(start, steps, DoCommit(r));
      done := steps + [DoCommit(r)];
      rows := MarkedRows(rows, batches[r].ids, batches[r].startedAt);
      batches := batches - {r};
    }

    /** The whole call is a run of relay steps. It returns the number of selected rows when
        all of them are delivered and marked; otherwise every row is as it was. */
    method PublishBatch(r: nat, limit: nat, resolver: Resolver, script: seq<Attempt>)
      returns (n: nat, ok: bool, ghost ids: seq<string>, ghost steps: seq<Step>)
      requires r !in batches && Inv(State())
      modifies this
      ensures State() == Exec(old(State()), steps)
      ensures batches == old(batches) && IsBatch(old(rows), old(batches), limit, ids)
      ensures ok ==> n == |ids| && rows == MarkedRows(old(rows), ids, old(now))
      ensures ok ==> rows.Keys == old(rows).Keys && forall id :: id in rows ==>
                rows[id] == if id in ids then old(rows)[id].(published := Some(old(now))) else old(rows)[id]
      ensures ok && n < limit ==> forall id :: Unpublished(rows, id) ==> Locked(old(batches), id)
      ensures ok ==> forall id :: id in ids ==> Delivered(State(), id)
      ensures ok ==> forall id, v :: id in ids && Promised(resolver, old(rows)[id].record.eventType, v) ==>
                exists e :: e in log && e.schema == v && Tells(e, id, old(rows)[id].record)
      ensures !ok ==> n == 0 && rows == old(rows)
      ensures AllAcked(script) && (forall id :: id in ids ==> Resolves(resolver, old(rows)[id].record.eventType)) ==> ok
    {
      var records := OpenBatch(r, limit);
      ids := records;
      ok, steps := PublishRows(r, resolver, script);
      steps := Then(old(State()), DoOpen(r, limit, records), steps);
      SetBack(old(batches), batches, r);
      if ok {
        steps := CommitBatch(r, old(State()), steps);
        forall id, v | id in ids && Promised(resolver, old(rows)[id].record.eventType, v)
          ensures exists e :: e in log && e.schema == v && Tells(e, id, old(rows)[id].record)
        {
          var e := PromisedIsBuilt(resolver, id, old(rows)[id].record, v);
          assert Delivered(State(), id);
        }
      } else {
        ExecSnoc(old(State()), steps, DoRollback(r));
        steps := steps + [DoRollback(r)];
        batches := batches - {r};
      }
      n := if ok then |records| else 0;
    }
  }
}
