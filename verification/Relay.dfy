/** The transactional outbox and its relays: rows are locked, published to the broker and
    only then marked, in every interleaving of writers, relays, failures and cleanups. */
module Relay {
  import opened Common

  datatype Record = Record(eventType: string, aggregateId: string, merchant: string, createdAt: int)

  datatype Row = Row(record: Record, published: Option<int>)

  datatype SchemaVersion = SchemaVersion(subject: string, version: string)

  datatype Envelope = Envelope(id: string, topic: string, key: string, record: Record, schema: SchemaVersion)

  predicate HasPrefix(s: string, prefix: string)
  {
    prefix <= s
  }

  function TopicForEvent(eventType: string): string
  {
    if HasPrefix(eventType, "order.") then "paygate.orders"
    else if HasPrefix(eventType, "payment.") then "paygate.payments"
    else if HasPrefix(eventType, "refund.") then "paygate.refunds"
    else if HasPrefix(eventType, "settlement.") then "paygate.settlements"
    else "paygate.internal"
  }

  /** The resolver's answer, or the first version of the event type when it has none. */
  function PublishSchemas(eventType: string, versions: seq<SchemaVersion>): (r: seq<SchemaVersion>)
  {
    if versions == [] then [SchemaVersion(eventType, "1.0.0")] else versions
  }

  function EnvelopeFor(id: string, rec: Record, schema: SchemaVersion): Envelope
  {
    Envelope(id, TopicForEvent(rec.eventType), rec.merchant, rec, schema)
  }

  function Envelopes(id: string, rec: Record, versions: seq<SchemaVersion>): seq<Envelope>
  {
    var schemas := PublishSchemas(rec.eventType, versions);
    seq(|schemas|, i requires 0 <= i < |schemas| => EnvelopeFor(id, rec, schemas[i]))
  }

  /** One open transaction of a relay: the rows it locked, how many are marked, and what is
      left to publish of the row in hand. */
  datatype Batch = Batch(ids: seq<string>, pos: nat, todo: Option<seq<Envelope>>, startedAt: int)

  /** `written` and `built` are histories: every row ever committed, and the envelopes last built for it. */
  datatype Sys = Sys(
    now: int,
    rows: map<string, Row>,
    batches: map<nat, Batch>,
    log: seq<Envelope>,
    written: map<string, Record>,
    built: map<string, seq<Envelope>>)

  datatype Step =
    | DoWrite(id: string, record: Record)
    | DoOpen(relay: nat, limit: nat, ids: seq<string>)
    | DoBuild(relay: nat, versions: seq<SchemaVersion>)
    | DoPublish(relay: nat, acked: bool, arrived: bool)
    | DoMark(relay: nat)
    | DoCommit(relay: nat)
    | DoRollback(relay: nat)
    | DoCleanup(olderThan: int)
    | DoTick(now: int)

  predicate Unpublished(rows: map<string, Row>, id: string)
  {
    id in rows && rows[id].published == None
  }

  predicate Locked(batches: map<nat, Batch>, id: string)
  {
    exists r :: r in batches && id in batches[r].ids
  }

  predicate Selectable(rows: map<string, Row>, batches: map<nat, Batch>, id: string)
  {
    Unpublished(rows, id) && !Locked(batches, id)
  }

  function CreatedAt(rows: map<string, Row>, id: string): int
    requires id in rows
  {
    rows[id].record.createdAt
  }

  predicate Ascending(rows: map<string, Row>, ids: seq<string>)
  {
    && (forall id :: id in ids ==> id in rows)
    && (forall i, j :: 0 <= i < j < |ids| ==> CreatedAt(rows, ids[i]) <= CreatedAt(rows, ids[j]))
  }

  /** The oldest unpublished rows nobody else has locked, oldest first, as many as the limit allows. */
  predicate IsBatch(rows: map<string, Row>, batches: map<nat, Batch>, limit: nat, ids: seq<string>)
  {
    && Distinct(ids) && |ids| <= limit && Ascending(rows, ids)
    && (forall id :: id in ids ==> Selectable(rows, batches, id))
    && (forall id, other :: id in ids && other in rows && Selectable(rows, batches, other) && other !in ids ==>
          CreatedAt(rows, id) <= CreatedAt(rows, other))
    && (|ids| < limit ==> forall other :: other in rows && Selectable(rows, batches, other) ==> other in ids)
  }

  function Write(s: Sys, id: string, record: Record): Sys
  {
    if id in s.written then s
    else s.(rows := s.rows[id := Row(record, None)], written := s.written[id := record])
  }

  function Open(s: Sys, r: nat, limit: nat, ids: seq<string>): Sys
  {
    if r in s.batches || !IsBatch(s.rows, s.batches, limit, ids) then s
    else s.(batches := s.batches[r := Batch(ids, 0, None, s.now)])
  }

  predicate Building(s: Sys, r: nat)
  {
    r in s.batches && s.batches[r].pos < |s.batches[r].ids| && s.batches[r].todo == None
  }

  function Build(s: Sys, r: nat, versions: seq<SchemaVersion>): Sys
  {
    if !Building(s, r) then s
    else
      var b := s.batches[r];
      var id := b.ids[b.pos];
      if id !in s.rows then s
      else
        var envelopes := Envelopes(id, s.rows[id].record, versions);
        s.(batches := s.batches[r := b.(todo := Some(envelopes))], built := s.built[id := envelopes])
  }

  predicate Publishing(s: Sys, r: nat)
  {
    r in s.batches && s.batches[r].todo.Some? && s.batches[r].todo.value != []
  }

  /** One attempt: the broker may have stored the message even when it reports an error. */
  function Publish(s: Sys, r: nat, acked: bool, arrived: bool): Sys
  {
    if !Publishing(s, r) then s
    else
      var b := s.batches[r];
      var log := if acked || arrived then s.log + [b.todo.value[0]] else s.log;
      var b' := if acked then b.(todo := Some(b.todo.value[1..])) else b;
      s.(log := log, batches := s.batches[r := b'])
  }

  function Mark(s: Sys, r: nat): Sys
  {
    if r in s.batches && s.batches[r].todo == Some([]) then
      s.(batches := s.batches[r := s.batches[r].(pos := s.batches[r].pos + 1, todo := None)])
    else s
  }

  function MarkedRows(rows: map<string, Row>, ids: seq<string>, at: int): map<string, Row>
  {
    map id | id in rows :: if id in ids then rows[id].(published := Some(at)) else rows[id]
  }

  /** The marks become visible together with the end of the locks. */
  function Commit(s: Sys, r: nat): Sys
  {
    if r in s.batches && s.batches[r].pos == |s.batches[r].ids| then
      s.(rows := MarkedRows(s.rows, s.batches[r].ids, s.batches[r].startedAt), batches := s.batches - {r})
    else s
  }

  function Kept(rows: map<string, Row>, before: int): map<string, Row>
  {
    map id | id in rows && !(rows[id].published.Some? && rows[id].published.value < before) :: rows[id]
  }

  function Apply(s: Sys, step: Step): Sys
  {
    match step
    case DoWrite(id, record) => Write(s, id, record)
    case DoOpen(r, limit, ids) => Open(s, r, limit, ids)
    case DoBuild(r, versions) => Build(s, r, versions)
    case DoPublish(r, acked, arrived) => Publish(s, r, acked, arrived)
    case DoMark(r) => Mark(s, r)
    case DoCommit(r) => Commit(s, r)
    case DoRollback(r) => s.(batches := s.batches - {r})
    case DoCleanup(olderThan) => s.(rows := Kept(s.rows, s.now - olderThan))
    case DoTick(now) => if now >= s.now then s.(now := now) else s
  }

  function Exec(s: Sys, steps: seq<Step>): Sys
  {
    if |steps| == 0 then s else Apply(Exec(s, steps[..|steps| - 1]), steps[|steps| - 1])
  }

  const EMPTY := Sys(0, map[], map[], [], map[], map[])

  lemma {:induction false} ExecAppend(s: Sys, first: seq<Step>, second: seq<Step>)
    ensures Exec(s, first + second) == Exec(Exec(s, first), second)
  {
    if second == [] {
      assert first + second == first;
    } else {
      ExecAppend(s, first, second[..|second| - 1]);
      assert (first + second)[..|first + second| - 1] == first + second[..|second| - 1];
    }
  }

  /** Delivery is at least once: an envelope the broker kept without acknowledging it is sent again. */
  lemma UnacknowledgedIsSentAgain(s: Sys, r: nat, arrived: bool)
    requires Publishing(s, r)
    ensures var e := s.batches[r].todo.value[0];
            Exec(s, [DoPublish(r, false, true), DoPublish(r, true, arrived)]).log == s.log + [e, e]
  {
    var steps := [DoPublish(r, false, true), DoPublish(r, true, arrived)];
    assert steps[..1] == [DoPublish(r, false, true)] && steps[..1][..0] == [];
    assert Exec(s, steps[..1]) == Apply(Exec(s, []), DoPublish(r, false, true));
    assert Exec(s, steps) == Apply(Exec(s, steps[..1]), DoPublish(r, true, arrived));
  }

  /** A committed batch is stamped with the instant it was opened, however late it commits. */
  lemma CommitStampsOpening(s: Sys, s': Sys, r: nat, limit: nat, ids: seq<string>)
    requires r !in s.batches && IsBatch(s.rows, s.batches, limit, ids)
    requires r in s'.batches && s'.batches[r] == Apply(s, DoOpen(r, limit, ids)).batches[r].(pos := |ids|)
    ensures var rows := Apply(s', DoCommit(r)).rows;
            && rows.Keys == s'.rows.Keys
            && forall id :: id in rows ==> rows[id] == if id in ids then s'.rows[id].(published := Some(s.now)) else s'.rows[id]
  {
  }

  // At-least-once delivery

  /** The envelope carries the row it was built for, on that event type's topic. */
  predicate Carries(s: Sys, id: string, e: Envelope)
  {
    id in s.written && e == EnvelopeFor(id, s.written[id], e.schema)
  }

  /** Every envelope last built for the row has reached the broker. */
  predicate Delivered(s: Sys, id: string)
  {
    id in s.built && s.built[id] != [] && forall e :: e in s.built[id] ==> e in s.log && Carries(s, id, e)
  }

  /** A committed event is waiting in the outbox or has been delivered, cleaned up or not. */
  predicate Accounted(s: Sys, id: string)
  {
    Unpublished(s.rows, id) || Delivered(s, id)
  }

  predicate RowsOk(s: Sys)
  {
    && (forall id :: id in s.rows ==> id in s.written && s.rows[id].record == s.written[id])
    && (forall id :: id in s.written ==> Accounted(s, id))
  }

  /** The row in hand: what is built for it has arrived or is still to be published. */
  predicate InHandOk(s: Sys, b: Batch)
  {
    b.todo.Some? ==>
      && b.pos < |b.ids| && b.ids[b.pos] in s.built && s.built[b.ids[b.pos]] != []
      && (forall e :: e in s.built[b.ids[b.pos]] ==> Carries(s, b.ids[b.pos], e) && (e in s.log || e in b.todo.value))
      && (forall e :: e in b.todo.value ==> e in s.built[b.ids[b.pos]])
  }

  predicate BatchOk(s: Sys, b: Batch)
  {
    && Distinct(b.ids) && b.pos <= |b.ids|
    && (forall id :: id in b.ids ==> Unpublished(s.rows, id))
    && (forall i :: 0 <= i < b.pos ==> Delivered(s, b.ids[i]))
    && InHandOk(s, b)
  }

  predicate BatchesOk(s: Sys)
  {
    forall r :: r in s.batches ==> BatchOk(s, s.batches[r])
  }

  predicate Disjoint(batches: map<nat, Batch>)
  {
    forall q, r, id :: q in batches && r in batches && id in batches[q].ids && id in batches[r].ids ==> q == r
  }

  predicate Inv(s: Sys)
  {
    RowsOk(s) && BatchesOk(s) && Disjoint(s.batches)
  }

  /** What a step of one relay leaves alone in the view of another batch. */
  predicate Undisturbed(s: Sys, s': Sys, b: Batch)
  {
    && (forall id :: id in b.ids && Unpublished(s.rows, id) ==> Unpublished(s'.rows, id))
    && (forall id :: id in b.ids && id in s.built ==> id in s'.built && s'.built[id] == s.built[id])
    && (forall e :: e in s.log ==> e in s'.log)
    && (forall id :: id in s.written ==> id in s'.written && s'.written[id] == s.written[id])
  }

  lemma UndisturbedStaysOk(s: Sys, s': Sys, b: Batch)
    requires BatchOk(s, b) && Undisturbed(s, s', b)
    ensures BatchOk(s', b)
  {
    forall i | 0 <= i < b.pos ensures Delivered(s', b.ids[i]) {
      assert Delivered(s, b.ids[i]);
    }
  }

  lemma BuildKeepsInv(s: Sys, r: nat, versions: seq<SchemaVersion>)
    requires Inv(s)
    ensures Inv(Build(s, r, versions))
  {
    var s' := Build(s, r, versions);
    if s' != s {
      var b := s.batches[r];
      var id := b.ids[b.pos];
      assert BatchOk(s, b);
      forall q | q in s'.batches ensures BatchOk(s', s'.batches[q]) {
        if q != r {
          assert id !in s.batches[q].ids;
          UndisturbedStaysOk(s, s', s.batches[q]);
        } else {
          BuiltBatchOk(s, r, versions);
        }
      }
      forall w | w in s'.written ensures Accounted(s', w) {
        assert Accounted(s, w);
      }
    }
  }

  lemma BuiltBatchOk(s: Sys, r: nat, versions: seq<SchemaVersion>)
    requires Building(s, r) && BatchOk(s, s.batches[r]) && RowsOk(s)
    ensures BatchOk(Build(s, r, versions), Build(s, r, versions).batches[r])
  {
    var s', b := Build(s, r, versions), s.batches[r];
    assert b.ids[b.pos] in b.ids;
    assert forall i :: 0 <= i < b.pos ==> b.ids[i] != b.ids[b.pos];
    forall i | 0 <= i < b.pos ensures Delivered(s', b.ids[i]) {
      assert Delivered(s, b.ids[i]);
    }
  }

  lemma PublishKeepsInv(s: Sys, r: nat, acked: bool, arrived: bool)
    requires Inv(s)
    ensures Inv(Publish(s, r, acked, arrived))
  {
    var s' := Publish(s, r, acked, arrived);
    if s' != s {
      forall q | q in s'.batches ensures BatchOk(s', s'.batches[q]) {
        assert BatchOk(s, s.batches[q]);
        UndisturbedStaysOk(s, s', s.batches[q]);
      }
      forall w | w in s'.written ensures Accounted(s', w) {
        assert Accounted(s, w);
      }
    }
  }

  lemma MarkKeepsInv(s: Sys, r: nat)
    requires Inv(s)
    ensures Inv(Mark(s, r))
  {
    var s' := Mark(s, r);
    if s' != s {
      forall q | q in s'.batches ensures BatchOk(s', s'.batches[q]) {
        assert BatchOk(s, s.batches[q]);
        UndisturbedStaysOk(s, s', s.batches[q]);
      }
      forall w | w in s'.written ensures Accounted(s', w) {
        assert Accounted(s, w);
      }
    }
  }

  lemma CommitKeepsInv(s: Sys, r: nat)
    requires Inv(s)
    ensures Inv(Commit(s, r))
  {
    var s' := Commit(s, r);
    if s' != s {
      var b := s.batches[r];
      assert BatchOk(s, b);
      forall w | w in s'.written ensures Accounted(s', w) {
        assert Accounted(s, w);
        if w in b.ids {
          var i :| 0 <= i < |b.ids| && b.ids[i] == w;
          assert Delivered(s, b.ids[i]);
        }
      }
      forall q | q in s'.batches ensures BatchOk(s', s'.batches[q]) {
        assert forall id :: id in s.batches[q].ids ==> id !in b.ids;
        UndisturbedStaysOk(s, s', s.batches[q]);
      }
    }
  }

  lemma OpenKeepsInv(s: Sys, r: nat, limit: nat, ids: seq<string>)
    requires Inv(s)
    ensures Inv(Open(s, r, limit, ids))
  {
    var s' := Open(s, r, limit, ids);
    if s' != s {
      assert forall id :: id in ids ==> !Locked(s.batches, id);
      forall q | q in s'.batches ensures BatchOk(s', s'.batches[q]) {
        if q != r { UndisturbedStaysOk(s, s', s.batches[q]); }
      }
      forall w | w in s'.written ensures Accounted(s', w) {
        assert Accounted(s, w);
      }
    }
  }

  lemma WriteKeepsRows(s: Sys, id: string, record: Record)
    requires RowsOk(s)
    ensures RowsOk(Write(s, id, record))
  {
    var s' := Write(s, id, record);
    forall w | w in s'.written ensures Accounted(s', w) {
      if w in s.written { assert Accounted(s, w); }
    }
  }

  lemma WriteKeepsInv(s: Sys, id: string, record: Record)
    requires Inv(s)
    ensures Inv(Write(s, id, record))
  {
    var s' := Write(s, id, record);
    WriteKeepsRows(s, id, record);
    forall q | q in s'.batches ensures BatchOk(s', s'.batches[q]) {
      UndisturbedStaysOk(s, s', s.batches[q]);
    }
  }

  lemma CleanupKeepsInv(s: Sys, olderThan: int)
    requires Inv(s)
    ensures Inv(Apply(s, DoCleanup(olderThan)))
  {
    var s' := Apply(s, DoCleanup(olderThan));
    forall q | q in s'.batches ensures BatchOk(s', s'.batches[q]) {
      UndisturbedStaysOk(s, s', s.batches[q]);
    }
    forall w | w in s'.written ensures Accounted(s', w) {
      assert Accounted(s, w);
    }
  }

  lemma OtherStepsKeepInv(s: Sys, step: Step)
    requires Inv(s) && (step.DoRollback? || step.DoTick?)
    ensures Inv(Apply(s, step))
  {
    var s' := Apply(s, step);
    forall q | q in s'.batches ensures BatchOk(s', s'.batches[q]) {
      UndisturbedStaysOk(s, s', s.batches[q]);
    }
    forall w | w in s'.written ensures Accounted(s', w) {
      assert Accounted(s, w);
    }
  }

  lemma StepKeepsInv(s: Sys, step: Step)
    requires Inv(s)
    ensures Inv(Apply(s, step))
  {
    match step
    case DoWrite(id, record) => WriteKeepsInv(s, id, record);
    case DoCleanup(olderThan) => CleanupKeepsInv(s, olderThan);
    case DoOpen(r, limit, ids) => OpenKeepsInv(s, r, limit, ids);
    case DoBuild(r, versions) => BuildKeepsInv(s, r, versions);
    case DoPublish(r, acked, arrived) => PublishKeepsInv(s, r, acked, arrived);
    case DoMark(r) => MarkKeepsInv(s, r);
    case DoCommit(r) => CommitKeepsInv(s, r);
    case _ => OtherStepsKeepInv(s, step);
  }

  lemma {:induction false} RunKeepsInv(s: Sys, steps: seq<Step>)
    requires Inv(s)
    ensures Inv(Exec(s, steps))
  {
    if |steps| > 0 {
      RunKeepsInv(s, steps[..|steps| - 1]);
      StepKeepsInv(Exec(s, steps[..|steps| - 1]), steps[|steps| - 1]);
    }
  }

  /** In every run each committed event is unpublished in the outbox or fully delivered,
      and no two open batches hold the same row. */
  lemma DeliveredAtLeastOnce(steps: seq<Step>, id: string)
    requires id in Exec(EMPTY, steps).written
    ensures Accounted(Exec(EMPTY, steps), id)
    ensures Disjoint(Exec(EMPTY, steps).batches)
  {
    RunKeepsInv(EMPTY, steps);
  }

  /** Cleanup removes only rows whose envelopes have all reached the broker. */
  lemma CleanupDropsOnlyDelivered(steps: seq<Step>, olderThan: int, id: string)
    ensures var s := Exec(EMPTY, steps);
            id in s.rows && id !in Apply(s, DoCleanup(olderThan)).rows ==> Delivered(s, id)
  {
    RunKeepsInv(EMPTY, steps);
    var s := Exec(EMPTY, steps);
    if id in s.rows { assert Accounted(s, id); }
  }
}
