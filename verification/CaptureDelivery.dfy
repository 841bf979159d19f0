/** The card path and the outbox together: every event row joins the transaction that
    caused it, and the relays carry it from there. */
module CaptureDelivery {
  import opened Common
  import opened CardPath
  import opened CardInvariants
  import C = CardRuns
  import L = CardLaws
  import R = Relay
  import PD = PaymentDomain

  datatype Sys = Sys(card: C.Sys, outbox: R.Sys, ids: seq<string>)

  /** A card-path transaction with the ids and the timestamp its event rows get, or any
      step of a relay or of another producer of events. */
  datatype Step =
    | CardStep(step: C.Step, ids: seq<string>, at: int)
    | OutboxStep(outbox: R.Step)

  function EventName(kind: EventType): string
  {
    match kind
    case OrderCreated => "order.created"
    case OrderPaid => "order.paid"
    case PaymentAuthorized => "payment.authorized"
    case PaymentPendingCustomerAction => "payment.pending_customer_action"
    case PaymentFailed => "payment.failed"
    case PaymentReversed => "payment.authorization_reversed"
    case PaymentCaptured => "payment.captured"
    case PaymentAutoRefunded => "payment.auto_refunded"
  }

  function EventMerchant(db: Db, subject: string): string
  {
    if subject in db.payments then db.payments[subject].merchant
    else if subject in db.orders then db.orders[subject].merchant
    else ""
  }

  function RecordOf(db: Db, e: Event, at: int): R.Record
  {
    R.Record(EventName(e.kind), e.subject, EventMerchant(db, e.subject), at)
  }

  /** The first k event rows of a transaction. */
  function WriteFirst(o: R.Sys, db: Db, events: seq<Event>, ids: seq<string>, at: int, k: nat): R.Sys
    requires k <= |ids| == |events|
  {
    if k == 0 then o
    else R.Write(WriteFirst(o, db, events, ids, at, k - 1), ids[k - 1], RecordOf(db, events[k - 1], at))
  }

  function WriteAll(o: R.Sys, db: Db, events: seq<Event>, ids: seq<string>, at: int): R.Sys
    requires |ids| == |events|
  {
    WriteFirst(o, db, events, ids, at, |ids|)
  }

  function NewEvents(db: Db, db': Db): seq<Event>
  {
    if |db.events| <= |db'.events| then db'.events[|db.events|..] else []
  }

  /** Generated ids are new and differ from each other. */
  predicate FreshIds(o: R.Sys, ids: seq<string>)
  {
    Distinct(ids) && forall id :: id in ids ==> id !in o.written
  }

  ghost function Apply(s: Sys, step: Step): Sys
  {
    match step
    case CardStep(card, ids, at) =>
      var card' := C.Apply(s.card, card);
      var events := NewEvents(s.card.db, card'.db);
      if |ids| != |events| || !FreshIds(s.outbox, ids) then s
      else Sys(card', WriteAll(s.outbox, card'.db, events, ids, at), s.ids + ids)
    case OutboxStep(o) => s.(outbox := R.Apply(s.outbox, o))
  }

  ghost function Exec(s: Sys, steps: seq<Step>): Sys
  {
    if |steps| == 0 then s else Apply(Exec(s, steps[..|steps| - 1]), steps[|steps| - 1])
  }

  const EMPTY := Sys(C.EMPTY, R.EMPTY, [])

  // Events are only ever added

  lemma {:induction false} RefundsAddEvents(db: Db, chosen: seq<string>)
    requires forall i :: 0 <= i < |chosen| ==> chosen[i] in db.payments
    ensures db.events <= RefundAll(db, chosen).events
  {
    if |chosen| > 0 {
      RefundsAddEvents(db, chosen[..|chosen| - 1]);
    }
  }

  lemma CaptureAddsEvents(db: Db, merchant: string, id: string, amount: int)
    ensures db.events <= Capture(db, merchant, id, amount).db.events
  {
  }

  lemma QuietStepAddsEvents(db: Db, step: C.Step)
    requires C.IsQuietStep(step)
    ensures db.events <= C.ApplyDb(db, step).events
  {
  }

  lemma AuthStepAddsEvents(s: C.Sys, step: C.Step)
    requires C.IsAuthStep(step)
    ensures s.db.events <= C.ApplyAuth(s, step).db.events
  {
  }

  lemma OrderStepAddsEvents(s: C.Sys, step: C.Step)
    requires C.IsOrderStep(step) && !C.Waits(s, step)
    ensures s.db.events <= C.ApplyDb(s.db, step).events
  {
    var orders, events := C.OrderStep(s, step);
  }

  lemma StepAddsEvents(s: C.Sys, step: C.Step)
    ensures s.db.events <= C.Apply(s, step).db.events
  {
    if C.Waits(s, step) {
    } else if C.IsAuthStep(step) {
      AuthStepAddsEvents(s, step);
    } else if C.IsQuietStep(step) {
      QuietStepAddsEvents(s.db, step);
    } else if C.IsOrderStep(step) {
      OrderStepAddsEvents(s, step);
    } else {
      MoneyStepAddsEvents(s.db, step);
    }
  }

  lemma MoneyStepAddsEvents(db: Db, step: C.Step)
    requires !C.IsAuthStep(step) && !C.IsQuietStep(step) && !C.IsOrderStep(step)
    ensures db.events <= C.ApplyDb(db, step).events
  {
    match step
    case DoCaptureStep(merchant, id, amount) => CaptureAddsEvents(db, merchant, id, amount);
    case DoRefundWindow(window, chosen) => if IsSelection(db, window, chosen) { RefundsAddEvents(db, chosen); }
    case _ =>
  }

  // Events and rows stay linked

  ghost predicate RowOf(written: map<string, R.Record>, id: string, e: Event)
  {
    id in written && written[id].eventType == EventName(e.kind) && written[id].aggregateId == e.subject
  }

  ghost predicate Linked(events: seq<Event>, ids: seq<string>, written: map<string, R.Record>)
  {
    |ids| == |events| && Distinct(ids) && forall i :: 0 <= i < |ids| ==> RowOf(written, ids[i], events[i])
  }

  ghost predicate Inv(s: Sys)
  {
    C.Inv(s.card) && R.Inv(s.outbox) && Linked(s.card.db.events, s.ids, s.outbox.written)
  }

  ghost predicate Grown(written: map<string, R.Record>, written': map<string, R.Record>)
  {
    forall id :: id in written ==> id in written' && written'[id] == written[id]
  }

  lemma OutboxStepGrows(o: R.Sys, step: R.Step)
    ensures Grown(o.written, R.Apply(o, step).written)
  {
  }

  lemma {:induction false} WritesKeepInv(o: R.Sys, db: Db, events: seq<Event>, ids: seq<string>, at: int, k: nat)
    requires R.Inv(o) && k <= |ids| == |events|
    ensures R.Inv(WriteFirst(o, db, events, ids, at, k))
  {
    if k > 0 {
      WritesKeepInv(o, db, events, ids, at, k - 1);
      R.WriteKeepsInv(WriteFirst(o, db, events, ids, at, k - 1), ids[k - 1], RecordOf(db, events[k - 1], at));
    }
  }

  /** The first k rows are there, and the rest are still new. */
  ghost predicate Adds(written: map<string, R.Record>, events: seq<Event>, ids: seq<string>, written': map<string, R.Record>, k: nat)
    requires k <= |ids| == |events|
  {
    && Grown(written, written')
    && (forall i :: 0 <= i < k ==> RowOf(written', ids[i], events[i]))
    && (forall j :: k <= j < |ids| ==> ids[j] !in written')
  }

  lemma {:induction false} WritesAdd(o: R.Sys, db: Db, events: seq<Event>, ids: seq<string>, at: int, k: nat)
    requires k <= |ids| == |events| && FreshIds(o, ids)
    ensures Adds(o.written, events, ids, WriteFirst(o, db, events, ids, at, k).written, k)
  {
    if k > 0 {
      WritesAdd(o, db, events, ids, at, k - 1);
    }
  }

  lemma LinkedAppend(events: seq<Event>, ids: seq<string>, written: map<string, R.Record>,
                     more: seq<Event>, newIds: seq<string>, written': map<string, R.Record>)
    requires Linked(events, ids, written) && |newIds| == |more| && Adds(written, more, newIds, written', |newIds|)
    requires Distinct(newIds)
    requires forall id :: id in newIds ==> id !in written
    ensures Linked(events + more, ids + newIds, written')
  {
    forall i, j | 0 <= i < j < |ids + newIds| ensures (ids + newIds)[i] != (ids + newIds)[j] {
      if i < |ids| <= j {
        assert RowOf(written, ids[i], events[i]);
        assert newIds[j - |ids|] in newIds;
      }
    }
    forall i | 0 <= i < |ids + newIds| ensures RowOf(written', (ids + newIds)[i], (events + more)[i]) {
      if i < |ids| {
        assert RowOf(written, ids[i], events[i]);
      } else {
        assert RowOf(written', newIds[i - |ids|], more[i - |ids|]);
      }
    }
  }

  /** What a card-path transaction leaves behind and the events it adds. */
  lemma CardMoves(s: C.Sys, step: C.Step) returns (s': C.Sys, events: seq<Event>)
    requires C.Inv(s)
    ensures s' == C.Apply(s, step) && C.Inv(s') && events == NewEvents(s.db, s'.db) && s'.db.events == s.db.events + events
  {
    s' := C.Apply(s, step);
    events := NewEvents(s.db, s'.db);
    C.StepKeepsInv(s, step);
    StepAddsEvents(s, step);
  }

  /** The rows of new events join the outbox and stay linked. */
  lemma WritesKeepLinked(s: Sys, db': Db, events: seq<Event>, ids: seq<string>, at: int)
    requires R.Inv(s.outbox) && Linked(s.card.db.events, s.ids, s.outbox.written)
    requires |ids| == |events| && FreshIds(s.outbox, ids)
    ensures R.Inv(WriteAll(s.outbox, db', events, ids, at))
    ensures Linked(s.card.db.events + events, s.ids + ids, WriteAll(s.outbox, db', events, ids, at).written)
  {
    WritesKeepInv(s.outbox, db', events, ids, at, |ids|);
    WritesAdd(s.outbox, db', events, ids, at, |ids|);
    LinkedAppend(s.card.db.events, s.ids, s.outbox.written, events, ids, WriteAll(s.outbox, db', events, ids, at).written);
  }

  lemma CardStepKeepsInv(s: Sys, step: C.Step, ids: seq<string>, at: int)
    requires Inv(s)
    ensures Inv(Apply(s, CardStep(step, ids, at)))
  {
    var card', events := CardMoves(s.card, step);
    if |ids| == |events| && FreshIds(s.outbox, ids) {
      WritesKeepLinked(s, card'.db, events, ids, at);
    }
  }

  lemma OutboxStepKeepsInv(s: Sys, o: R.Step)
    requires Inv(s)
    ensures Inv(Apply(s, OutboxStep(o)))
  {
    R.StepKeepsInv(s.outbox, o);
    OutboxStepGrows(s.outbox, o);
    forall i | 0 <= i < |s.ids| ensures RowOf(R.Apply(s.outbox, o).written, s.ids[i], s.card.db.events[i]) {
      assert RowOf(s.outbox.written, s.ids[i], s.card.db.events[i]);
    }
  }

  lemma StepKeepsInv(s: Sys, step: Step)
    requires Inv(s)
    ensures Inv(Apply(s, step))
  {
    match step
    case CardStep(card, ids, at) => CardStepKeepsInv(s, card, ids, at);
    case OutboxStep(o) => OutboxStepKeepsInv(s, o);
  }

  lemma {:induction false} RunKeepsInv(steps: seq<Step>)
    ensures Inv(Exec(EMPTY, steps))
  {
    if |steps| > 0 {
      RunKeepsInv(steps[..|steps| - 1]);
      StepKeepsInv(Exec(EMPTY, steps[..|steps| - 1]), steps[|steps| - 1]);
    } else {
      C.RunKeepsInv([]);
    }
  }

  // Capture events carry their payment's merchant

  ghost predicate CarriesMerchant(payments: Payments, written: map<string, R.Record>, id: string, e: Event)
  {
    e.kind == PaymentCaptured ==> id in written && e.subject in payments && written[id].merchant == payments[e.subject].merchant
  }

  ghost predicate MerchantsOk(db: Db, ids: seq<string>, written: map<string, R.Record>)
  {
    |ids| == |db.events| && forall i :: 0 <= i < |ids| ==> CarriesMerchant(db.payments, written, ids[i], db.events[i])
  }

  lemma {:induction false} WritesRecord(o: R.Sys, db: Db, events: seq<Event>, ids: seq<string>, at: int, k: nat, i: nat)
    requires i < k <= |ids| == |events| && FreshIds(o, ids)
    ensures var written := WriteFirst(o, db, events, ids, at, k).written;
            ids[i] in written && written[ids[i]] == RecordOf(db, events[i], at)
  {
    WritesAdd(o, db, events, ids, at, k - 1);
    if i < k - 1 {
      WritesRecord(o, db, events, ids, at, k - 1, i);
    }
  }

  /** An announced payment is among the captured ones. */
  lemma AnnouncedIsCaptured(db: Db, i: nat)
    requires Traced(CapturedIds(db.payments), db.txns, db.events) && i < |db.events| && db.events[i].kind == PaymentCaptured
    ensures db.events[i].subject in db.payments
  {
    assert db.events[i] == CapturedEvent(db.events[i].subject);
    assert db.events[i] in multiset(db.events);
  }

  lemma CardStepKeepsMerchants(s: Sys, step: C.Step, ids: seq<string>, at: int)
    requires Inv(s) && MerchantsOk(s.card.db, s.ids, s.outbox.written)
    ensures var s' := Apply(s, CardStep(step, ids, at)); MerchantsOk(s'.card.db, s'.ids, s'.outbox.written)
  {
    var card', events := CardMoves(s.card, step);
    if |ids| == |events| && FreshIds(s.outbox, ids) {
      L.StepKeepsAgreements(s.card, step);
      RowsCarryMerchants(s.card.db, card'.db, s.ids, s.outbox, events, ids, at);
    }
  }

  lemma RowsCarryMerchants(db: Db, db': Db, ids: seq<string>, o: R.Sys, events: seq<Event>, newIds: seq<string>, at: int)
    requires MerchantsOk(db, ids, o.written) && db'.events == db.events + events && L.AgreementsStay(db.payments, db'.payments)
    requires Traced(CapturedIds(db'.payments), db'.txns, db'.events)
    requires |newIds| == |events| && FreshIds(o, newIds)
    ensures MerchantsOk(db', ids + newIds, WriteAll(o, db', events, newIds, at).written)
  {
    var written := WriteAll(o, db', events, newIds, at).written;
    WritesAdd(o, db', events, newIds, at, |newIds|);
    forall i | 0 <= i < |ids + newIds| ensures CarriesMerchant(db'.payments, written, (ids + newIds)[i], db'.events[i]) {
      if i < |ids| {
        assert CarriesMerchant(db.payments, o.written, ids[i], db.events[i]);
      } else {
        WritesRecord(o, db', events, newIds, at, |newIds|, i - |ids|);
        if db'.events[i].kind == PaymentCaptured { AnnouncedIsCaptured(db', i); }
      }
    }
  }

  lemma OutboxStepKeepsMerchants(s: Sys, o: R.Step)
    requires MerchantsOk(s.card.db, s.ids, s.outbox.written)
    ensures MerchantsOk(s.card.db, s.ids, R.Apply(s.outbox, o).written)
  {
    OutboxStepGrows(s.outbox, o);
    forall i | 0 <= i < |s.ids|
      ensures CarriesMerchant(s.card.db.payments, R.Apply(s.outbox, o).written, s.ids[i], s.card.db.events[i])
    {
      assert CarriesMerchant(s.card.db.payments, s.outbox.written, s.ids[i], s.card.db.events[i]);
    }
  }

  lemma {:induction false} RunKeepsMerchants(steps: seq<Step>)
    ensures var s := Exec(EMPTY, steps); MerchantsOk(s.card.db, s.ids, s.outbox.written)
  {
    if |steps| > 0 {
      var s, step := Exec(EMPTY, steps[..|steps| - 1]), steps[|steps| - 1];
      RunKeepsMerchants(steps[..|steps| - 1]);
      RunKeepsInv(steps[..|steps| - 1]);
      match step
      case CardStep(card, ids, at) => CardStepKeepsMerchants(s, card, ids, at);
      case OutboxStep(o) => OutboxStepKeepsMerchants(s, o);
    }
  }

  // The promise

  lemma CountedTwice(events: seq<Event>, i: nat, j: nat)
    requires i < j < |events| && events[i] == events[j]
    ensures multiset(events)[events[i]] >= 2
  {
    assert events == events[..i] + [events[i]] + events[i + 1..j] + [events[i]] + events[j + 1..];
  }

  lemma CountedOnce(events: seq<Event>, e: Event) returns (i: nat)
    requires multiset(events)[e] == 1
    ensures i < |events| && events[i] == e && forall j :: 0 <= j < |events| && events[j] == e ==> j == i
  {
    assert e in multiset(events);
    i :| 0 <= i < |events| && events[i] == e;
    forall j | 0 <= j < |events| && events[j] == e ensures j == i {
      if j < i { CountedTwice(events, j, i); }
      if i < j { CountedTwice(events, i, j); }
    }
  }

  /** The facts about the tables the promise needs, without the rest of the invariant. */
  lemma CapturesAreEvents(db: Db, payment: string)
    requires DbOk(db)
    ensures multiset(db.events)[CapturedEvent(payment)] ==
              (if payment in db.payments && db.payments[payment].status == PD.Captured then 1 else 0)
  {
    assert payment in CapturedIds(db.payments) <==> payment in db.payments && db.payments[payment].status == PD.Captured;
  }

  /** Reached states, as far as the promise needs them. */
  lemma Reached(steps: seq<Step>, payment: string) returns (s: Sys)
    ensures s == Exec(EMPTY, steps) && R.RowsOk(s.outbox) && Linked(s.card.db.events, s.ids, s.outbox.written)
    ensures multiset(s.card.db.events)[CapturedEvent(payment)] ==
              (if payment in s.card.db.payments && s.card.db.payments[payment].status == PD.Captured then 1 else 0)
  {
    s := Exec(EMPTY, steps);
    RunKeepsInv(steps);
    CapturesAreEvents(s.card.db, payment);
  }

  /** In every run of card transactions, relays, failed publishes, rollbacks and cleanups,
      a captured payment has exactly one payment.captured event, and its outbox row is
      still waiting there or has had every envelope delivered. The row names the payment and its
      merchant, and every envelope built for it goes to paygate.payments under that merchant's key. */
  lemma CapturedReachesConsumers(steps: seq<Step>, payment: string) returns (i: nat)
    requires var db := Exec(EMPTY, steps).card.db; payment in db.payments && db.payments[payment].status == PD.Captured
    ensures var s := Exec(EMPTY, steps);
            var events := s.card.db.events;
            && i < |events| == |s.ids| && events[i] == CapturedEvent(payment)
            && (forall j :: 0 <= j < |events| && events[j] == CapturedEvent(payment) ==> j == i)
            && s.ids[i] in s.outbox.written && s.outbox.written[s.ids[i]].eventType == "payment.captured"
            && s.outbox.written[s.ids[i]].aggregateId == payment
            && s.outbox.written[s.ids[i]].merchant == s.card.db.payments[payment].merchant
            && R.Accounted(s.outbox, s.ids[i])
            && (R.Delivered(s.outbox, s.ids[i]) ==> forall e :: e in s.outbox.built[s.ids[i]] ==>
                  && e in s.outbox.log && e.id == s.ids[i] && e.topic == "paygate.payments"
                  && e.key == s.card.db.payments[payment].merchant && e.record == s.outbox.written[s.ids[i]])
  {
    var s := Reached(steps, payment);
    RunKeepsMerchants(steps);
    i := CountedOnce(s.card.db.events, CapturedEvent(payment));
    assert RowOf(s.outbox.written, s.ids[i], s.card.db.events[i]);
    assert CarriesMerchant(s.card.db.payments, s.outbox.written, s.ids[i], s.card.db.events[i]);
    if R.Delivered(s.outbox, s.ids[i]) { DeliveredToPayments(s.outbox, s.ids[i]); }
  }

  /** Whatever was delivered for a payment.captured row went to paygate.payments under its merchant's key. */
  lemma DeliveredToPayments(o: R.Sys, id: string)
    requires R.Delivered(o, id) && id in o.written && o.written[id].eventType == "payment.captured"
    ensures forall e :: e in o.built[id] ==>
              && e in o.log && e.id == id && e.topic == "paygate.payments"
              && e.key == o.written[id].merchant && e.record == o.written[id]
  {
    NamesTellKinds(PaymentCaptured);
  }

  lemma RowIsCapture(events: seq<Event>, ids: seq<string>, written: map<string, R.Record>, i: nat)
    requires Linked(events, ids, written) && i < |ids| && ids[i] in written && written[ids[i]].eventType == "payment.captured"
    ensures multiset(events)[CapturedEvent(written[ids[i]].aggregateId)] > 0
  {
    assert RowOf(written, ids[i], events[i]);
    OnlyCapturesAreNamedCaptured(events[i].kind);
    assert events[i] in multiset(events);
  }

  /** The name tells which kind of event it is. */
  function KindOf(name: string): Option<EventType>
    requires |name| > 8
  {
    if name[0] == 'o' then (if name[6] == 'c' then Some(OrderCreated) else Some(OrderPaid))
    else match name[8]
      case 'c' => Some(PaymentCaptured)
      case 'f' => Some(PaymentFailed)
      case 'p' => Some(PaymentPendingCustomerAction)
      case 'a' =>
        if |name| == 18 then Some(PaymentAuthorized) else if |name| == 21 then Some(PaymentAutoRefunded) else Some(PaymentReversed)
      case _ => None
  }

  /** Consumers can tell every kind of event from its name, and order events go to the orders topic,
      payment events to the payments topic. */
  lemma NamesTellKinds(kind: EventType)
    ensures |EventName(kind)| > 8 && KindOf(EventName(kind)) == Some(kind)
    ensures R.TopicForEvent(EventName(kind))
            == if kind.OrderCreated? || kind.OrderPaid? then "paygate.orders" else "paygate.payments"
  {
    var name := EventName(kind);
    if kind.OrderCreated? || kind.OrderPaid? {
      assert "order." <= name;
    } else {
      assert "payment." <= name && "order."[0] == 'o' && name[0] == 'p';
    }
  }

  lemma OnlyCapturesAreNamedCaptured(kind: EventType)
    ensures EventName(kind) == "payment.captured" <==> kind == PaymentCaptured
  {
    NamesTellKinds(kind);
  }

  /** No payment.captured row of the card path exists for a payment that is not captured. */
  lemma OnlyCapturesAreAnnounced(steps: seq<Step>, i: nat)
    requires i < |Exec(EMPTY, steps).ids| && Exec(EMPTY, steps).ids[i] in Exec(EMPTY, steps).outbox.written
    requires Exec(EMPTY, steps).outbox.written[Exec(EMPTY, steps).ids[i]].eventType == "payment.captured"
    ensures var s := Exec(EMPTY, steps);
            var payment := s.outbox.written[s.ids[i]].aggregateId;
            payment in s.card.db.payments && s.card.db.payments[payment].status == PD.Captured
  {
    var s := Reached(steps, Exec(EMPTY, steps).outbox.written[Exec(EMPTY, steps).ids[i]].aggregateId);
    RowIsCapture(s.card.db.events, s.ids, s.outbox.written, i);
  }
}
