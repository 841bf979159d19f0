/** Ordered delivery: one relay, and rows that enter the outbox in creation order. */
module RelayOrder {
  import opened Common
  import opened Relay

  /** The ids in the order of their first delivery. */
  function FirstDeliveries(log: seq<Envelope>): (r: seq<string>)
    ensures forall id :: id in r <==> Sent(log, id)
    ensures Distinct(r)
  {
    if log == [] then []
    else
      var last := log[|log| - 1].id;
      var earlier := FirstDeliveries(log[..|log| - 1]);
      assert log == log[..|log| - 1] + [log[|log| - 1]];
      if last in earlier then earlier else earlier + [last]
  }

  predicate Sent(log: seq<Envelope>, id: string)
  {
    exists e :: e in log && e.id == id
  }

  /** Writers append in creation order, and only relay 0 works. */
  predicate Orderly(s: Sys, step: Step)
  {
    match step
    case DoWrite(id, record) => forall w :: w in s.written ==> s.written[w].createdAt <= record.createdAt
    case DoOpen(r, _, _) => r == 0
    case _ => true
  }

  predicate OrderlyRun(steps: seq<Step>)
  {
    forall i :: 0 <= i < |steps| ==> Orderly(Exec(EMPTY, steps[..i]), steps[i])
  }

  predicate NonDecreasing(written: map<string, Record>, ids: seq<string>)
  {
    && (forall id :: id in ids ==> id in written)
    && (forall i, j :: 0 <= i < j < |ids| ==> written[ids[i]].createdAt <= written[ids[j]].createdAt)
  }

  predicate OneRelay(s: Sys)
  {
    forall r :: r in s.batches ==> r == 0
  }

  /** The open batch is in creation order and older than every waiting row outside it. */
  ghost predicate BatchOldest(s: Sys)
  {
    0 in s.batches ==>
      && Ascending(s.rows, s.batches[0].ids)
      && (forall id, other :: id in s.batches[0].ids && Unpublished(s.rows, other) && other !in s.batches[0].ids ==>
            CreatedAt(s.rows, id) <= CreatedAt(s.rows, other))
  }

  /** Whatever has been sent is no newer than whatever has not. */
  predicate SentIsOlder(s: Sys)
  {
    && (forall e :: e in s.log ==> e.id in s.written)
    && (forall e, id :: e in s.log && id in s.written && !Sent(s.log, id) ==>
          s.written[e.id].createdAt <= s.written[id].createdAt)
  }

  ghost predicate InOrder(s: Sys)
  {
    OneRelay(s) && BatchOldest(s) && SentIsOlder(s) && NonDecreasing(s.written, FirstDeliveries(s.log))
  }

  lemma DeliveredIsSent(s: Sys, id: string)
    ensures Delivered(s, id) ==> Sent(s.log, id)
  {
    if Delivered(s, id) { assert s.built[id][0] in s.built[id]; }
  }

  /** Everything not yet sent is at least as new as the row in hand. */
  lemma InHandIsOldest(s: Sys, other: string)
    requires Inv(s) && InOrder(s) && Publishing(s, 0) && other in s.written && !Sent(s.log, other)
    ensures var b := s.batches[0];
            && b.pos < |b.ids| && b.todo.value[0].id == b.ids[b.pos] && b.ids[b.pos] in s.written
            && s.written[b.ids[b.pos]].createdAt <= s.written[other].createdAt
  {
    var b := s.batches[0];
    assert BatchOk(s, b);
    assert b.todo.value[0] in b.todo.value;
    assert Carries(s, b.ids[b.pos], b.todo.value[0]);
    assert b.ids[b.pos] in b.ids;
    assert Unpublished(s.rows, b.ids[b.pos]);
    assert Accounted(s, other);
    DeliveredIsSent(s, other);
    assert forall j :: 0 <= j < b.pos ==> b.ids[j] != other;
    if other in b.ids {
      var j :| 0 <= j < |b.ids| && b.ids[j] == other;
      assert j == b.pos || b.pos < j;
    }
  }

  lemma SentAppend(log: seq<Envelope>, e: Envelope, id: string)
    ensures Sent(log + [e], id) <==> Sent(log, id) || id == e.id
  {
    assert e in log + [e];
  }

  lemma PublishKeepsSentOlder(s: Sys, acked: bool, arrived: bool)
    requires Inv(s) && InOrder(s)
    ensures SentIsOlder(Publish(s, 0, acked, arrived))
  {
    if Publishing(s, 0) && (acked || arrived) {
      var e := InHand(s);
      forall f, id | f in s.log + [e] && id in s.written && !Sent(s.log + [e], id)
        ensures s.written[f.id].createdAt <= s.written[id].createdAt
      {
        SentAppend(s.log, e, id);
        InHandIsOldest(s, id);
      }
    }
  }

  lemma InHand(s: Sys) returns (e: Envelope)
    requires Inv(s) && Publishing(s, 0)
    ensures e == s.batches[0].todo.value[0] && e.id in s.written
  {
    e := s.batches[0].todo.value[0];
    assert BatchOk(s, s.batches[0]);
    assert e in s.batches[0].todo.value;
    assert Carries(s, s.batches[0].ids[s.batches[0].pos], e);
  }

  lemma PublishKeepsOrder(s: Sys, acked: bool, arrived: bool)
    requires Inv(s) && InOrder(s)
    ensures NonDecreasing(s.written, FirstDeliveries(Publish(s, 0, acked, arrived).log))
  {
    if Publishing(s, 0) && (acked || arrived) {
      var e := InHand(s);
      assert (s.log + [e])[..|s.log + [e]| - 1] == s.log;
      if !Sent(s.log, e.id) {
        forall id | id in FirstDeliveries(s.log) ensures s.written[id].createdAt <= s.written[e.id].createdAt {
          assert Sent(s.log, id);
        }
      }
    }
  }

  lemma OpenKeepsOldest(s: Sys, limit: nat, ids: seq<string>)
    requires Inv(s) && InOrder(s)
    ensures BatchOldest(Open(s, 0, limit, ids))
  {
    var s' := Open(s, 0, limit, ids);
    if s' != s {
      assert s.batches == map[];
      forall other | Unpublished(s.rows, other) && other !in ids ensures Selectable(s.rows, s.batches, other) {
      }
    }
  }

  /** The rows of the open batch are still waiting in the outbox. */
  predicate BatchWaits(s: Sys)
  {
    0 in s.batches ==> forall id :: id in s.batches[0].ids ==> Unpublished(s.rows, id)
  }

  lemma InvBatchWaits(s: Sys)
    requires Inv(s)
    ensures BatchWaits(s)
  {
    if 0 in s.batches { assert BatchOk(s, s.batches[0]); }
  }

  lemma WriteKeepsOldest(s: Sys, id: string, record: Record)
    requires RowsOk(s) && BatchOldest(s) && BatchWaits(s) && Orderly(s, DoWrite(id, record))
    ensures BatchOldest(Write(s, id, record))
  {
    if id !in s.written && 0 in s.batches {
      var ids, rows, rows' := s.batches[0].ids, s.rows, Write(s, id, record).rows;
      assert id !in rows;
      forall k | k in ids ensures k in rows' && CreatedAt(rows', k) == CreatedAt(rows, k) <= record.createdAt {
        assert Unpublished(rows, k);
      }
    }
  }

  lemma WriteKeepsSent(s: Sys, id: string, record: Record)
    requires SentIsOlder(s) && NonDecreasing(s.written, FirstDeliveries(s.log)) && Orderly(s, DoWrite(id, record))
    ensures SentIsOlder(Write(s, id, record))
    ensures NonDecreasing(Write(s, id, record).written, FirstDeliveries(Write(s, id, record).log))
  {
  }

  lemma WriteKeepsOrder(s: Sys, id: string, record: Record)
    requires Inv(s) && InOrder(s) && Orderly(s, DoWrite(id, record))
    ensures InOrder(Write(s, id, record))
  {
    InvBatchWaits(s);
    WriteKeepsOldest(s, id, record);
    WriteKeepsSent(s, id, record);
  }

  lemma CommitKeepsOldest(s: Sys)
    requires Inv(s) && InOrder(s)
    ensures BatchOldest(Commit(s, 0))
  {
  }

  lemma CleanupKeepsOldest(s: Sys, olderThan: int)
    requires BatchWaits(s) && BatchOldest(s)
    ensures BatchOldest(Apply(s, DoCleanup(olderThan)))
  {
    if 0 in s.batches {
      var rows' := Apply(s, DoCleanup(olderThan)).rows;
      assert forall k :: Unpublished(s.rows, k) ==> k in rows' && rows'[k] == s.rows[k];
    }
  }

  lemma StepKeepsOrder(s: Sys, step: Step)
    requires Inv(s) && InOrder(s) && Orderly(s, step)
    ensures InOrder(Apply(s, step))
  {
    match step
    case DoWrite(id, record) => WriteKeepsOrder(s, id, record);
    case DoOpen(r, limit, ids) => OpenKeepsOldest(s, limit, ids);
    case DoPublish(r, acked, arrived) => if r == 0 { PublishKeepsOrder(s, acked, arrived); PublishKeepsSentOlder(s, acked, arrived); }
    case DoCommit(r) => if r == 0 { CommitKeepsOldest(s); }
    case DoCleanup(olderThan) =>
      InvBatchWaits(s);
      CleanupKeepsOldest(s, olderThan);
    case _ =>
  }

  lemma {:induction false} RunKeepsOrder(steps: seq<Step>)
    requires OrderlyRun(steps)
    ensures InOrder(Exec(EMPTY, steps)) && Inv(Exec(EMPTY, steps))
  {
    RunKeepsInv(EMPTY, steps);
    if |steps| > 0 {
      var init := steps[..|steps| - 1];
      assert forall i :: 0 <= i < |init| ==> init[..i] == steps[..i];
      RunKeepsOrder(init);
      StepKeepsOrder(Exec(EMPTY, init), steps[|steps| - 1]);
    }
  }

  /** However many batches fail, roll back and are retried, events are first delivered in
      the order of their creation. */
  lemma FirstDeliveriesInOrder(steps: seq<Step>)
    requires OrderlyRun(steps)
    ensures NonDecreasing(Exec(EMPTY, steps).written, FirstDeliveries(Exec(EMPTY, steps).log))
  {
    RunKeepsOrder(steps);
  }
}
