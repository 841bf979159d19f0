/** What every card-path transaction keeps: the exposure cap and the agreement of
    payments, orders, ledger postings and outbox events. */
module CardInvariants {
  import opened Common
  import opened Ledger
  import opened CaptureJournal
  import opened CardPath
  import PD = PaymentDomain
  import OD = OrderDomain

  type Orders = map<string, Order>
  type Payments = map<string, Payment>

  // Payments against their orders

  predicate PaymentOk(orders: Orders, p: Payment)
  {
    && p.order in orders
    && var o := orders[p.order];
    && p.merchant == o.merchant && p.currency == o.currency && p.amount > 0 && SplitsAccepted(p.splits)
    && (!o.partial ==> p.amount == o.amount)
    && o.status != OD.Created && o.status != OD.Expired
    && (p.captured <==> p.status == PD.Captured)
    && (p.captured ==> o.status == OD.Paid && p.fee == Fee(p.amount))
  }

  predicate PaymentsOk(orders: Orders, payments: Payments)
  {
    forall id :: id in payments ==> PaymentOk(orders, payments[id])
  }

  // Orders against their payments

  predicate HasCaptured(payments: Payments, order: string)
  {
    exists id :: id in payments && payments[id].order == order && payments[id].status == PD.Captured
  }

  predicate HasLive(payments: Payments, order: string)
  {
    exists id :: id in payments && payments[id].order == order && Live(payments[id])
  }

  predicate OrderOk(id: string, o: Order, payments: Payments)
  {
    && o.amount > 0
    && (o.status == OD.Paid ==> HasCaptured(payments, id) && o.amountPaid == o.amount && o.amountDue == 0)
    && (o.status != OD.Paid ==> o.amountPaid == 0 && o.amountDue == o.amount)
    && (o.status == OD.Failed && !o.partial ==> !HasLive(payments, id))
  }

  predicate OrdersOk(orders: Orders, payments: Payments)
  {
    forall id :: id in orders ==> OrderOk(id, orders[id], payments)
  }

  /** Live payments never ask for more than the order is worth. */
  ghost predicate Capped(orders: Orders, payments: Payments)
  {
    forall id :: id in orders ==> Exposure(payments, orders[id].merchant, id) <= orders[id].amount
  }

  // Captures against postings and events

  function CapturedEvent(id: string): Event
  {
    Event(PaymentCaptured, id)
  }

  ghost function CapturedIds(payments: Payments): set<string>
  {
    set id | id in payments && payments[id].status == PD.Captured
  }

  /** Whatever is captured is posted, and announced once; nothing else is announced. */
  ghost predicate Traced(captured: set<string>, txns: seq<Txn>, events: seq<Event>)
  {
    && (forall id :: id in captured ==> SourceUsed(txns, PaymentCapture(id)))
    && (forall id :: multiset(events)[CapturedEvent(id)] == if id in captured then 1 else 0)
  }

  ghost predicate DbOk(db: Db)
  {
    && LedgerOk(db.txns)
    && PaymentsOk(db.orders, db.payments)
    && OrdersOk(db.orders, db.payments)
    && Capped(db.orders, db.payments)
    && Traced(CapturedIds(db.payments), db.txns, db.events)
  }

  // Exposure

  /** No payment appears and no exposure grows. */
  ghost predicate NoNewExposure(payments: Payments, payments': Payments)
  {
    && payments'.Keys == payments.Keys
    && forall m: string, o: string :: Exposure(payments', m, o) <= Exposure(payments, m, o)
  }

  predicate SameTerms(p: Payment, q: Payment)
  {
    p.order == q.order && p.merchant == q.merchant && p.amount == q.amount && p.splits == q.splits
  }

  lemma RewriteLowersExposure(payments: Payments, id: string, p: Payment)
    requires id in payments && SameTerms(p, payments[id]) && p.amount > 0
    requires Live(p) ==> Live(payments[id])
    ensures NoNewExposure(payments, payments[id := p])
  {
    forall m: string, o: string ensures Exposure(payments[id := p], m, o) <= Exposure(payments, m, o) {
      SumMapUpdate(payments, id, p, LiveOn(m, o));
    }
  }

  lemma NoNewExposureTransitive(a: Payments, b: Payments, c: Payments)
    requires NoNewExposure(a, b) && NoNewExposure(b, c)
    ensures NoNewExposure(a, c)
  {
    forall m: string, o: string ensures Exposure(c, m, o) <= Exposure(a, m, o) {
      assert Exposure(c, m, o) <= Exposure(b, m, o);
    }
  }

  lemma CappedAfter(orders: Orders, payments: Payments, orders': Orders, payments': Payments)
    requires Capped(orders, payments) && NoNewExposure(payments, payments') && orders'.Keys == orders.Keys
    requires forall o :: o in orders ==> SameOrder(orders[o], orders'[o])
    ensures Capped(orders', payments')
  {
    forall o | o in orders' ensures Exposure(payments', orders'[o].merchant, o) <= orders'[o].amount {
      assert SameOrder(orders[o], orders'[o]);
      assert Exposure(payments', orders[o].merchant, o) <= Exposure(payments, orders[o].merchant, o);
    }
  }

  /** Rewriting one payment on the same terms keeps every order capped. */
  lemma RewriteKeepsCapped(orders: Orders, payments: Payments, id: string, p: Payment, orders': Orders)
    requires Capped(orders, payments) && PaymentsOk(orders, payments)
    requires id in payments && SameTerms(p, payments[id]) && (Live(p) ==> Live(payments[id]))
    requires orders'.Keys == orders.Keys
    requires forall o :: o in orders ==> SameOrder(orders[o], orders'[o])
    ensures NoNewExposure(payments, payments[id := p]) && Capped(orders', payments[id := p])
  {
    assert PaymentOk(orders, payments[id]);
    RewriteLowersExposure(payments, id, p);
    CappedAfter(orders, payments, orders', payments[id := p]);
  }

  /** A full-amount order has room for one live payment only. */
  lemma OneLivePayment(orders: Orders, payments: Payments, i: string, j: string)
    requires PaymentsOk(orders, payments) && Capped(orders, payments)
    requires i in payments && j in payments && payments[i].order == payments[j].order
    requires Live(payments[i]) && Live(payments[j])
    requires !orders[payments[i].order].partial
    ensures i == j
  {
    if i != j {
      var order := payments[i].order;
      var w := LiveOn(orders[order].merchant, order);
      assert PaymentOk(orders, payments[i]) && PaymentOk(orders, payments[j]);
      forall k | k in payments ensures w(k, payments[k]) >= 0 {
        assert PaymentOk(orders, payments[k]);
      }
      SumMapTwo(payments, i, j, w);
      assert false;
    }
  }

  lemma NoPaymentsNoExposure(orders: Orders, payments: Payments, m: string, o: string)
    requires PaymentsOk(orders, payments) && o !in orders
    ensures Exposure(payments, m, o) == 0
  {
    forall k | k in payments ensures LiveOn(m, o)(k, payments[k]) == 0 {
      assert PaymentOk(orders, payments[k]);
    }
    SumMapZero(payments, LiveOn(m, o));
  }

  // Events and postings that announce no capture

  lemma OtherEventsKeepTraced(captured: set<string>, txns: seq<Txn>, events: seq<Event>, more: seq<Event>)
    requires Traced(captured, txns, events)
    requires |more| <= 1 && (|more| == 1 ==> more[0].kind != PaymentCaptured)
    ensures Traced(captured, txns, events + more)
  {
    assert multiset(events + more) == multiset(events) + multiset(more);
  }

  lemma OtherPostingKeepsTraced(captured: set<string>, txns: seq<Txn>, events: seq<Event>, t: Txn)
    requires Traced(captured, txns, events)
    ensures Traced(captured, txns + [t], events)
  {
    forall id: string | id in captured ensures SourceUsed(txns + [t], PaymentCapture(id)) {
      UsedAfterAppend(txns, t, PaymentCapture(id));
    }
  }

  lemma CaptureKeepsTraced(captured: set<string>, txns: seq<Txn>, events: seq<Event>, t: Txn, id: string, order: string)
    requires Traced(captured, txns, events) && id !in captured && t.source == PaymentCapture(id)
    ensures Traced(captured + {id}, txns + [t], events + [CapturedEvent(id), Event(OrderPaid, order)])
  {
    forall k: string | k in captured + {id} ensures SourceUsed(txns + [t], PaymentCapture(k)) {
      UsedAfterAppend(txns, t, PaymentCapture(k));
    }
    var more := [CapturedEvent(id), Event(OrderPaid, order)];
    assert multiset(events + more) == multiset(events) + multiset(more);
    assert multiset(more) == multiset{CapturedEvent(id), Event(OrderPaid, order)};
  }

  // Transactions that move a payment without capturing it

  /** A rewrite that keeps a payment's terms and neither starts nor ends in captured. */
  predicate IsQuiet(q: Payment, p: Payment)
  {
    && p == q.(status := p.status, authorizedAt := p.authorizedAt, autoCaptureAt := p.autoCaptureAt)
    && q.status != PD.Captured && p.status != PD.Captured
    && (Live(p) ==> Live(q))
  }

  lemma QuietKeepsOrdersOk(orders: Orders, payments: Payments, id: string, p: Payment)
    requires OrdersOk(orders, payments) && id in payments && IsQuiet(payments[id], p)
    ensures OrdersOk(orders, payments[id := p])
  {
    forall o | o in orders ensures OrderOk(o, orders[o], payments[id := p]) {
      assert OrderOk(o, orders[o], payments);
      if HasCaptured(payments, o) {
        var k :| k in payments && payments[k].order == o && payments[k].status == PD.Captured;
        assert payments[id := p][k].status == PD.Captured;
      }
    }
  }

  lemma QuietKeepsPaymentsOk(orders: Orders, payments: Payments, id: string, p: Payment)
    requires PaymentsOk(orders, payments) && id in payments && IsQuiet(payments[id], p)
    ensures PaymentsOk(orders, payments[id := p]) && CapturedIds(payments[id := p]) == CapturedIds(payments)
  {
    assert PaymentOk(orders, payments[id]);
  }

  lemma QuietKeepsDbOk(db: Db, id: string, p: Payment, challenges: map<string, Challenge>, events: seq<Event>)
    requires DbOk(db) && id in db.payments && IsQuiet(db.payments[id], p)
    requires |events| <= 1 && (|events| == 1 ==> events[0].kind != PaymentCaptured)
    ensures DbOk(Rewrite(db, id, p, challenges, events).db)
    ensures NoNewExposure(db.payments, db.payments[id := p])
  {
    QuietKeepsPaymentsOk(db.orders, db.payments, id, p);
    QuietKeepsOrdersOk(db.orders, db.payments, id, p);
    RewriteKeepsCapped(db.orders, db.payments, id, p, db.orders);
    OtherEventsKeepTraced(CapturedIds(db.payments), db.txns, db.events, events);
  }

  // Starting an authorization

  /** What the lock, the checks and the sum establish before the rows are written. */
  ghost predicate MayInsert(db: Db, input: AuthInput)
  {
    && OrderKnown(db, input.merchant, input.order) && input.id !in db.payments && SplitsAccepted(input.splits)
    && var o := db.orders[input.order];
    && (o.status == OD.Created || o.status == OD.Attempted) && input.currency == o.currency
    && input.amount > 0 && (!o.partial ==> input.amount == o.amount)
    && Exposure(db.payments, input.merchant, input.order) + input.amount <= o.amount
  }

  lemma InsertMovesExposure(payments: Payments, input: AuthInput, m: string, o: string)
    requires input.id !in payments
    ensures Exposure(payments[input.id := NewPayment(input)], m, o) == Exposure(payments, m, o)
              + (if input.merchant == m && input.order == o then input.amount else 0)
  {
    SumMapInsert(payments, input.id, NewPayment(input), LiveOn(m, o));
  }

  lemma InsertKeepsOrdersOk(db: Db, input: AuthInput)
    requires OrdersOk(db.orders, db.payments) && MayInsert(db, input)
    ensures OrdersOk(InsertPayment(db, input).orders, InsertPayment(db, input).payments)
  {
    var db' := InsertPayment(db, input);
    forall o | o in db'.orders ensures OrderOk(o, db'.orders[o], db'.payments) {
      assert OrderOk(o, db.orders[o], db.payments);
      if HasCaptured(db.payments, o) {
        var k :| k in db.payments && db.payments[k].order == o && db.payments[k].status == PD.Captured;
        assert db'.payments[k].status == PD.Captured;
      }
    }
  }

  lemma InsertKeepsCapped(db: Db, input: AuthInput)
    requires Capped(db.orders, db.payments) && MayInsert(db, input)
    ensures Capped(InsertPayment(db, input).orders, InsertPayment(db, input).payments)
  {
    var db' := InsertPayment(db, input);
    forall o | o in db'.orders ensures Exposure(db'.payments, db'.orders[o].merchant, o) <= db'.orders[o].amount {
      InsertMovesExposure(db.payments, input, db.orders[o].merchant, o);
    }
  }

  lemma InsertKeepsPaymentsOk(db: Db, input: AuthInput)
    requires PaymentsOk(db.orders, db.payments) && MayInsert(db, input)
    ensures PaymentsOk(InsertPayment(db, input).orders, InsertPayment(db, input).payments)
    ensures CapturedIds(InsertPayment(db, input).payments) == CapturedIds(db.payments)
  {
    var db' := InsertPayment(db, input);
    forall k | k in db'.payments ensures PaymentOk(db'.orders, db'.payments[k]) {
      if k != input.id { assert PaymentOk(db.orders, db.payments[k]); }
    }
  }

  lemma InsertKeepsDbOk(db: Db, input: AuthInput)
    requires DbOk(db) && MayInsert(db, input)
    ensures DbOk(InsertPayment(db, input))
  {
    InsertKeepsPaymentsOk(db, input);
    InsertKeepsOrdersOk(db, input);
    InsertKeepsCapped(db, input);
    OtherEventsKeepTraced(CapturedIds(db.payments), db.txns, db.events, [Event(PaymentAuthorized, input.id)]);
  }

  // Capture

  lemma CaptureKeepsPaymentsOk(db: Db, id: string, txns: seq<Txn>)
    requires PaymentsOk(db.orders, db.payments) && id in db.payments && db.payments[id].status == PD.Authorized
    ensures var db' := CaptureRows(db, id, txns);
            PaymentsOk(db'.orders, db'.payments) && CapturedIds(db'.payments) == CapturedIds(db.payments) + {id}
  {
    var db' := CaptureRows(db, id, txns);
    assert PaymentOk(db.orders, db.payments[id]);
    forall k | k in db'.payments ensures PaymentOk(db'.orders, db'.payments[k]) {
      assert PaymentOk(db.orders, db.payments[k]);
    }
  }

  lemma CaptureKeepsOrdersOk(db: Db, id: string, txns: seq<Txn>)
    requires PaymentsOk(db.orders, db.payments) && OrdersOk(db.orders, db.payments)
    requires id in db.payments && db.payments[id].status == PD.Authorized
    ensures var db' := CaptureRows(db, id, txns); OrdersOk(db'.orders, db'.payments)
  {
    var db' := CaptureRows(db, id, txns);
    assert PaymentOk(db.orders, db.payments[id]);
    assert db'.payments[id].status == PD.Captured;
    forall o | o in db'.orders ensures OrderOk(o, db'.orders[o], db'.payments) {
      assert OrderOk(o, db.orders[o], db.payments);
      if o == db.payments[id].order {
        assert HasCaptured(db'.payments, o);
      } else if HasCaptured(db.payments, o) {
        var k :| k in db.payments && db.payments[k].order == o && db.payments[k].status == PD.Captured;
        assert db'.payments[k].status == PD.Captured;
      }
    }
  }

  lemma CaptureRowsKeepDbOk(db: Db, id: string, t: Txn)
    requires DbOk(db) && id in db.payments && db.payments[id].status == PD.Authorized
    requires t.source == PaymentCapture(id) && LedgerOk(db.txns + [t])
    ensures DbOk(CaptureRows(db, id, db.txns + [t]))
    ensures NoNewExposure(db.payments, CaptureRows(db, id, db.txns + [t]).payments)
  {
    var db' := CaptureRows(db, id, db.txns + [t]);
    CaptureKeepsPaymentsOk(db, id, db'.txns);
    CaptureKeepsOrdersOk(db, id, db'.txns);
    RewriteKeepsCapped(db.orders, db.payments, id, db'.payments[id], db'.orders);
    CaptureKeepsTraced(CapturedIds(db.payments), db.txns, db.events, t, id, db.payments[id].order);
  }

  // Sweeping

  /** Refunding the one live payment of a full-amount order leaves it none. */
  lemma RefundLeavesNoLive(orders: Orders, payments: Payments, id: string, p: Payment)
    requires PaymentsOk(orders, payments) && Capped(orders, payments)
    requires id in payments && Live(payments[id]) && SameTerms(p, payments[id]) && !Live(p)
    requires !orders[payments[id].order].partial
    ensures !HasLive(payments[id := p], payments[id].order)
  {
    if HasLive(payments[id := p], payments[id].order) {
      var k :| k in payments[id := p] && payments[id := p][k].order == payments[id].order && Live(payments[id := p][k]);
      OneLivePayment(orders, payments, k, id);
      assert false;
    }
  }

  /** Refunding an authorized payment captures nothing and revives nothing. */
  lemma RefundMovesNoOther(payments: Payments, id: string, o: string)
    requires id in payments && payments[id].status == PD.Authorized
    ensures HasCaptured(payments, o) ==> HasCaptured(payments[id := payments[id].(status := PD.AutoRefunded)], o)
    ensures HasLive(payments[id := payments[id].(status := PD.AutoRefunded)], o) ==> HasLive(payments, o)
  {
    var payments' := payments[id := payments[id].(status := PD.AutoRefunded)];
    if HasCaptured(payments, o) {
      var k :| k in payments && payments[k].order == o && payments[k].status == PD.Captured;
      assert payments'[k].status == PD.Captured;
    }
    if HasLive(payments', o) {
      var k :| k in payments' && payments'[k].order == o && Live(payments'[k]);
      assert Live(payments[k]);
    }
  }

  lemma RefundKeepsOrderOk(db: Db, id: string, o: string)
    requires o in db.orders && OrderOk(o, db.orders[o], db.payments)
    requires id in db.payments && db.payments[id].status == PD.Authorized
    requires o == db.payments[id].order && !db.orders[o].partial ==> !HasLive(RefundOne(db, id).payments, o)
    ensures o in RefundOne(db, id).orders && OrderOk(o, RefundOne(db, id).orders[o], RefundOne(db, id).payments)
  {
    RefundMovesNoOther(db.payments, id, o);
  }

  lemma RefundKeepsOrdersOk(db: Db, id: string)
    requires PaymentsOk(db.orders, db.payments) && OrdersOk(db.orders, db.payments) && Capped(db.orders, db.payments)
    requires id in db.payments && db.payments[id].status == PD.Authorized
    ensures OrdersOk(RefundOne(db, id).orders, RefundOne(db, id).payments)
  {
    assert PaymentOk(db.orders, db.payments[id]);
    if !db.orders[db.payments[id].order].partial {
      RefundLeavesNoLive(db.orders, db.payments, id, RefundOne(db, id).payments[id]);
    }
    forall o | o in RefundOne(db, id).orders ensures OrderOk(o, RefundOne(db, id).orders[o], RefundOne(db, id).payments) {
      assert OrderOk(o, db.orders[o], db.payments);
      RefundKeepsOrderOk(db, id, o);
    }
  }

  lemma RefundKeepsPaymentOk(db: Db, id: string, k: string)
    requires id in db.payments && db.payments[id].status == PD.Authorized && k in db.payments
    requires PaymentOk(db.orders, db.payments[k])
    ensures k in RefundOne(db, id).payments && PaymentOk(RefundOne(db, id).orders, RefundOne(db, id).payments[k])
  {
  }

  lemma RefundKeepsPaymentsOk(db: Db, id: string)
    requires PaymentsOk(db.orders, db.payments) && id in db.payments && db.payments[id].status == PD.Authorized
    ensures PaymentsOk(RefundOne(db, id).orders, RefundOne(db, id).payments)
    ensures CapturedIds(RefundOne(db, id).payments) == CapturedIds(db.payments)
  {
    forall k | k in RefundOne(db, id).payments ensures PaymentOk(RefundOne(db, id).orders, RefundOne(db, id).payments[k]) {
      assert PaymentOk(db.orders, db.payments[k]);
      RefundKeepsPaymentOk(db, id, k);
    }
  }

  lemma RefundKeepsDbOk(db: Db, id: string)
    requires DbOk(db) && id in db.payments && db.payments[id].status == PD.Authorized
    ensures DbOk(RefundOne(db, id))
    ensures NoNewExposure(db.payments, RefundOne(db, id).payments)
  {
    var db' := RefundOne(db, id);
    RefundKeepsPaymentsOk(db, id);
    RefundKeepsOrdersOk(db, id);
    RewriteKeepsCapped(db.orders, db.payments, id, db'.payments[id], db'.orders);
    OtherEventsKeepTraced(CapturedIds(db.payments), db.txns, db.events, [Event(PaymentAutoRefunded, id)]);
  }

  lemma {:induction false} RefundAllRows(db: Db, chosen: seq<string>)
    requires forall i :: 0 <= i < |chosen| ==> chosen[i] in db.payments
    ensures forall k :: k in db.payments ==>
              RefundAll(db, chosen).payments[k] == if k in chosen then db.payments[k].(status := PD.AutoRefunded) else db.payments[k]
  {
    if |chosen| > 0 {
      RefundAllRows(db, chosen[..|chosen| - 1]);
      assert chosen == chosen[..|chosen| - 1] + [chosen[|chosen| - 1]];
    }
  }

  predicate AllAuthorized(payments: Payments, chosen: seq<string>)
  {
    Distinct(chosen) && forall i :: 0 <= i < |chosen| ==> chosen[i] in payments && payments[chosen[i]].status == PD.Authorized
  }

  /** The last turn of the sweep's loop starts from a row that is still authorized. */
  lemma LastTurn(db: Db, chosen: seq<string>) returns (mid: Db, id: string)
    requires |chosen| > 0 && AllAuthorized(db.payments, chosen)
    ensures AllAuthorized(db.payments, chosen[..|chosen| - 1]) && mid == RefundAll(db, chosen[..|chosen| - 1])
    ensures id in mid.payments && mid.payments[id].status == PD.Authorized && RefundAll(db, chosen) == RefundOne(mid, id)
  {
    mid, id := RefundAll(db, chosen[..|chosen| - 1]), chosen[|chosen| - 1];
    RefundAllRows(db, chosen[..|chosen| - 1]);
  }

  lemma {:induction false} RefundAllKeepsDbOk(db: Db, chosen: seq<string>)
    requires DbOk(db) && AllAuthorized(db.payments, chosen)
    ensures DbOk(RefundAll(db, chosen)) && NoNewExposure(db.payments, RefundAll(db, chosen).payments)
  {
    if |chosen| > 0 {
      RefundAllKeepsDbOk(db, chosen[..|chosen| - 1]);
      var mid, id := LastTurn(db, chosen);
      RefundKeepsDbOk(mid, id);
      NoNewExposureTransitive(db.payments, mid.payments, RefundOne(mid, id).payments);
    }
  }

  // Order rows and unrelated postings

  predicate OrderMayMove(o: Order, o': Order)
  {
    || o' == o
    || (o.status == OD.Created && (o' == o.(status := OD.Attempted) || o' == o.(status := OD.Expired)))
  }

  predicate IsNewOrder(o: Order)
  {
    o.amount > 0 && o.status == OD.Created && o.amountPaid == 0 && o.amountDue == o.amount
  }

  lemma OrderRowsKeepDbOk(db: Db, orders: Orders, events: seq<Event>)
    requires DbOk(db) && db.orders.Keys <= orders.Keys
    requires forall o :: o in db.orders ==> OrderMayMove(db.orders[o], orders[o])
    requires forall o :: o in orders && o !in db.orders ==> IsNewOrder(orders[o])
    requires |events| <= 1 && (|events| == 1 ==> events[0].kind != PaymentCaptured)
    ensures DbOk(db.(orders := orders, events := db.events + events))
  {
    OtherEventsKeepTraced(CapturedIds(db.payments), db.txns, db.events, events);
    forall k | k in db.payments ensures PaymentOk(orders, db.payments[k]) {
      assert PaymentOk(db.orders, db.payments[k]);
    }
    forall o | o in orders
      ensures OrderOk(o, orders[o], db.payments) && Exposure(db.payments, orders[o].merchant, o) <= orders[o].amount
    {
      if o in db.orders {
        assert OrderOk(o, db.orders[o], db.payments) && OrderMayMove(db.orders[o], orders[o]);
      } else {
        NoPaymentsNoExposure(db.orders, db.payments, orders[o].merchant, o);
      }
    }
  }

  lemma PostKeepsDbOk(db: Db, merchant: string, source: Source, entries: seq<Entry>)
    requires DbOk(db) && Post(db.txns, merchant, source, entries).Posted?
    ensures DbOk(db.(txns := Post(db.txns, merchant, source, entries).txns))
  {
    PostKeepsLedgerOk(db.txns, merchant, source, entries);
    OtherPostingKeepsTraced(CapturedIds(db.payments), db.txns, db.events, MakeTxn(merchant, source, entries));
  }
}
