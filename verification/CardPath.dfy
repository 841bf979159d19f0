/** The card path of the payment repository: every transaction as one operation on the tables. */
module CardPath {
  import opened Common
  import opened Ledger
  import opened CaptureJournal
  import PD = PaymentDomain
  import OD = OrderDomain

  datatype Order = Order(
    merchant: string, amount: int, amountPaid: int, amountDue: int, currency: string,
    status: OD.State, partial: bool, expiresAt: int)

  datatype Method = Card | Upi | Netbanking | Wallet | Unsupported(name: string)

  /** A payments row together with its payment_splits amounts in listing order. */
  datatype Payment = Payment(
    order: string, merchant: string, amount: int, currency: string, payBy: Method, status: PD.State,
    captured: bool, fee: int, authorizedAt: Option<int>, autoCaptureAt: Option<int>, splits: seq<int>)

  datatype ChallengeStatus = Pending | Completed | ChallengeFailed | Abandoned | ChallengeExpired

  datatype Challenge = Challenge(status: ChallengeStatus, token: string, autoCapture: bool, expiresAt: int)

  datatype EventType =
    | OrderCreated
    | OrderPaid
    | PaymentAuthorized
    | PaymentPendingCustomerAction
    | PaymentFailed
    | PaymentReversed
    | PaymentCaptured
    | PaymentAutoRefunded

  /** An outbox row: what happened and to which order or payment. */
  datatype Event = Event(kind: EventType, subject: string)

  datatype Db = Db(
    orders: map<string, Order>, payments: map<string, Payment>, challenges: map<string, Challenge>,
    txns: seq<Txn>, events: seq<Event>, now: int)

  datatype Error =
    | OrderNotFound
    | OrderExpired
    | OrderAmountExceeded
    | PaymentNotFound
    | InvalidTransition
    | CurrencyMismatch
    | AmountMismatch
    | InvalidPaymentMethod
    | InvalidOrder
    | ChallengeRejected
    | LedgerRefused(result: PostResult)
    | Violation

  /** Written: the transaction committed a change. Replayed: it found nothing to do. */
  datatype Result = Written | Replayed | Rejected(error: Error)

  datatype Outcome = Outcome(db: Db, result: Result)

  // Orders

  function CreateOrder(db: Db, id: string, merchant: string, amount: int, currency: string, partial: bool): Outcome
  {
    if amount <= 0 || (currency != "INR" && currency != "USD") || TrimSpace(merchant) == "" then Outcome(db, Rejected(InvalidOrder))
    else if id in db.orders then Outcome(db, Rejected(Violation))
    else
      var o := Order(merchant, amount, 0, amount, currency, OD.Created, partial, db.now + 1800 * SECOND);
      Outcome(db.(orders := db.orders[id := o], events := db.events + [Event(OrderCreated, id)]), Written)
  }

  predicate OrderKnown(db: Db, merchant: string, order: string)
  {
    order in db.orders && db.orders[order].merchant == merchant
  }

  /** Two versions of one order row: what was ordered never changes. */
  predicate SameOrder(o: Order, o': Order)
  {
    && o'.merchant == o.merchant && o'.amount == o.amount && o'.currency == o.currency
    && o'.partial == o.partial && o'.expiresAt == o.expiresAt
  }

  /** created becomes attempted; every other status stays. */
  function MarkAttempted(db: Db, merchant: string, order: string): (r: map<string, Order>)
    ensures r.Keys == db.orders.Keys && forall o :: o in r ==> SameOrder(db.orders[o], r[o])
  {
    if OrderKnown(db, merchant, order) && db.orders[order].status == OD.Created
    then db.orders[order := db.orders[order].(status := OD.Attempted)]
    else db.orders
  }

  function FailedAttempt(db: Db, merchant: string, order: string): Outcome
  {
    Outcome(db.(orders := MarkAttempted(db, merchant, order), events := db.events + [Event(PaymentFailed, order)]), Written)
  }

  predicate OrderDue(db: Db, id: string)
  {
    id in db.orders && db.orders[id].status == OD.Created && db.orders[id].expiresAt <= db.now
  }

  function ExpireOrders(db: Db, chosen: set<string>): Db
  {
    db.(orders := map id | id in db.orders ::
          if id in chosen then db.orders[id].(status := OD.Expired) else db.orders[id])
  }

  // Starting an authorization

  datatype AuthInput = AuthInput(
    id: string, merchant: string, order: string, amount: int, currency: string, payBy: Method, splits: seq<int>)

  /** A payment that can still take money. */
  predicate Live(p: Payment)
  {
    p.status != PD.Failed && p.status != PD.AuthorizationReversed && p.status != PD.AutoRefunded
  }

  function LiveOn(merchant: string, order: string): (string, Payment) -> int
  {
    (id: string, p: Payment) => if p.order == order && p.merchant == merchant && Live(p) then p.amount else 0
  }

  /** The order's total live exposure. */
  ghost function Exposure(payments: map<string, Payment>, merchant: string, order: string): int
  {
    SumMap(payments, LiveOn(merchant, order))
  }

  /** The checks made on the locked order row. */
  function OrderCheck(db: Db, input: AuthInput): Option<Error>
  {
    if input.amount <= 0 then Some(AmountMismatch)
    else if input.payBy.Unsupported? then Some(InvalidPaymentMethod)
    else if !OrderKnown(db, input.merchant, input.order) then Some(OrderNotFound)
    else
      var o := db.orders[input.order];
      if o.status == OD.Expired || db.now > o.expiresAt then Some(OrderExpired)
      else if o.status == OD.Paid || o.status == OD.Failed then Some(InvalidTransition)
      else if input.currency != o.currency then Some(CurrencyMismatch)
      else if o.partial then (if input.amount > o.amountDue then Some(AmountMismatch) else None)
      else if input.amount != o.amount then Some(AmountMismatch)
      else None
  }

  predicate SplitsAccepted(splits: seq<int>)
  {
    forall i :: 0 <= i < |splits| ==> splits[i] >= 0
  }

  function NewPayment(input: AuthInput): Payment
  {
    Payment(input.order, input.merchant, input.amount, input.currency, input.payBy, PD.Created, false, 0, None, None, input.splits)
  }

  /** The rows the transaction writes when it commits. */
  function InsertPayment(db: Db, input: AuthInput): Db
  {
    db.(payments := db.payments[input.id := NewPayment(input)],
        orders := MarkAttempted(db, input.merchant, input.order),
        events := db.events + [Event(PaymentAuthorized, input.id)])
  }

  ghost function StartAuthorization(db: Db, input: AuthInput): Outcome
  {
    var failure := OrderCheck(db, input);
    if failure.Some? then Outcome(db, Rejected(failure.value))
    else if Exposure(db.payments, input.merchant, input.order) + input.amount > db.orders[input.order].amount then
      Outcome(db, Rejected(OrderAmountExceeded))
    else if input.id in db.payments then Outcome(db, Rejected(Violation))
    else if !SplitsAccepted(input.splits) then Outcome(db, Rejected(AmountMismatch))
    else Outcome(InsertPayment(db, input), Written)
  }

  // Moving a payment that has not been captured

  predicate Known(db: Db, merchant: string, id: string)
  {
    id in db.payments && db.payments[id].merchant == merchant
  }

  function Rewrite(db: Db, id: string, p: Payment, challenges: map<string, Challenge>, events: seq<Event>): Outcome
  {
    Outcome(db.(payments := db.payments[id := p], challenges := challenges, events := db.events + events), Written)
  }

  function RequireAction(db: Db, merchant: string, id: string, token: string, autoCapture: bool, expiresAt: int): Outcome
  {
    if !Known(db, merchant, id) then Outcome(db, Rejected(PaymentNotFound))
    else
      var p := db.payments[id];
      match p.status
      case RequiresAction => Outcome(db, Replayed)
      case Created =>
        Rewrite(db, id, p.(status := PD.RequiresAction),
                db.challenges[id := Challenge(Pending, token, autoCapture, expiresAt)],
                [Event(PaymentPendingCustomerAction, id)])
      case _ => Outcome(db, Rejected(InvalidTransition))
  }

  function Authorize(db: Db, merchant: string, id: string, autoCaptureAt: Option<int>): Outcome
  {
    if !Known(db, merchant, id) then Outcome(db, Rejected(PaymentNotFound))
    else
      var p := db.payments[id];
      match p.status
      case Authorized => Outcome(db, Replayed)
      case Created =>
        Rewrite(db, id, p.(status := PD.Authorized, authorizedAt := Some(db.now), autoCaptureAt := autoCaptureAt),
                db.challenges, [Event(PaymentAuthorized, id)])
      case _ => Outcome(db, Rejected(InvalidTransition))
  }

  /** An empty description would store NULL in a column that forbids it. */
  function FailAuthorization(db: Db, merchant: string, id: string, description: string): Outcome
  {
    if !Known(db, merchant, id) then Outcome(db, Rejected(PaymentNotFound))
    else
      var p := db.payments[id];
      match p.status
      case Failed => Outcome(db, Replayed)
      case Created | RequiresAction =>
        if description == "" then Outcome(db, Rejected(Violation))
        else Rewrite(db, id, p.(status := PD.Failed), db.challenges, [Event(PaymentFailed, id)])
      case _ => Outcome(db, Rejected(InvalidTransition))
  }

  predicate TokenAccepted(db: Db, id: string, token: string)
  {
    token != "" && id in db.challenges && db.challenges[id].token == token
  }

  function CompleteChallenge(db: Db, merchant: string, id: string, token: string, completedAt: int): Outcome
  {
    if !Known(db, merchant, id) then Outcome(db, Rejected(PaymentNotFound))
    else if !TokenAccepted(db, id, token) then Outcome(db, Rejected(ChallengeRejected))
    else
      var p, c := db.payments[id], db.challenges[id];
      if c.status != Pending || p.status != PD.RequiresAction then Outcome(db, Replayed)
      else if completedAt > c.expiresAt then
        Rewrite(db, id, p.(status := PD.Failed), db.challenges[id := c.(status := ChallengeExpired)], [])
      else
        var at := if c.autoCapture then Some(completedAt + 30 * SECOND) else None;
        Rewrite(db, id, p.(status := PD.Authorized, authorizedAt := Some(completedAt), autoCaptureAt := at),
                db.challenges[id := c.(status := Completed)], [Event(PaymentAuthorized, id)])
  }

  function FailChallenge(
    db: Db, merchant: string, id: string, token: string, description: string, status: ChallengeStatus): Outcome
  {
    if !Known(db, merchant, id) then Outcome(db, Rejected(PaymentNotFound))
    else if !TokenAccepted(db, id, token) then Outcome(db, Rejected(ChallengeRejected))
    else
      var p := db.payments[id];
      if p.status != PD.RequiresAction then Outcome(db, Replayed)
      else if description == "" then Outcome(db, Rejected(Violation))
      else
        Rewrite(db, id, p.(status := PD.Failed), db.challenges[id := db.challenges[id].(status := status)],
                [Event(PaymentFailed, id)])
  }

  function Reverse(db: Db, merchant: string, id: string, reason: string): Outcome
  {
    if !Known(db, merchant, id) then Outcome(db, Rejected(PaymentNotFound))
    else
      var p := db.payments[id];
      match p.status
      case AuthorizationReversed => Outcome(db, Replayed)
      case Authorized =>
        if reason == "" then Outcome(db, Rejected(Violation))
        else
          Rewrite(db, id, p.(status := PD.AuthorizationReversed, autoCaptureAt := None), db.challenges,
                  [Event(PaymentReversed, id)])
      case _ => Outcome(db, Rejected(InvalidTransition))
  }

  // Capture

  /** The order a captured payment belongs to becomes paid in full. */
  function MarkPaid(db: Db, merchant: string, order: string): (r: map<string, Order>)
    ensures r.Keys == db.orders.Keys && forall o :: o in r ==> SameOrder(db.orders[o], r[o])
  {
    if OrderKnown(db, merchant, order) then
      var o := db.orders[order];
      db.orders[order := o.(status := OD.Paid, amountPaid := o.amount, amountDue := 0)]
    else db.orders
  }

  /** The rows a successful capture writes. */
  function CaptureRows(db: Db, id: string, txns: seq<Txn>): Db
    requires id in db.payments
  {
    var p := db.payments[id];
    db.(txns := txns,
        payments := db.payments[id := p.(status := PD.Captured, captured := true, fee := Fee(p.amount))],
        orders := MarkPaid(db, p.merchant, p.order),
        events := db.events + [Event(PaymentCaptured, id), Event(OrderPaid, p.order)])
  }

  function Capture(db: Db, merchant: string, id: string, amount: int): Outcome
  {
    if !Known(db, merchant, id) then Outcome(db, Rejected(PaymentNotFound))
    else
      var p := db.payments[id];
      if p.status == PD.Captured then Outcome(db, Replayed)
      else if p.status != PD.Authorized then Outcome(db, Rejected(InvalidTransition))
      else if amount != p.amount then Outcome(db, Rejected(AmountMismatch))
      else if Residual(amount, p.splits) < 0 then Outcome(db, Rejected(AmountMismatch))
      else match Post(db.txns, p.merchant, PaymentCapture(id), Entries(amount, p.splits))
        case Posted(txns) => Outcome(CaptureRows(db, id, txns), Written)
        case refusal => Outcome(db, Rejected(LedgerRefused(refusal)))
  }

  // Sweeping authorizations past their window

  predicate PastWindow(db: Db, window: int, id: string)
  {
    && id in db.payments && db.payments[id].status == PD.Authorized
    && db.payments[id].authorizedAt.Some? && db.payments[id].authorizedAt.value <= db.now - window
  }

  /** attempted becomes failed; every other status stays. */
  function MarkFailed(db: Db, merchant: string, order: string): (r: map<string, Order>)
    ensures r.Keys == db.orders.Keys && forall o :: o in r ==> SameOrder(db.orders[o], r[o])
  {
    if OrderKnown(db, merchant, order) && db.orders[order].status == OD.Attempted
    then db.orders[order := db.orders[order].(status := OD.Failed)]
    else db.orders
  }

  function RefundOne(db: Db, id: string): Db
    requires id in db.payments
  {
    var p := db.payments[id];
    db.(payments := db.payments[id := p.(status := PD.AutoRefunded)],
        orders := MarkFailed(db, p.merchant, p.order),
        events := db.events + [Event(PaymentAutoRefunded, id)])
  }

  /** The sweep's loop over the rows it selected. */
  function RefundAll(db: Db, chosen: seq<string>): (r: Db)
    requires forall i :: 0 <= i < |chosen| ==> chosen[i] in db.payments
    ensures r.payments.Keys == db.payments.Keys
  {
    if |chosen| == 0 then db else RefundOne(RefundAll(db, chosen[..|chosen| - 1]), chosen[|chosen| - 1])
  }

  /** Rows one sweep may select: past the window, no row twice, at most fifty. */
  predicate IsSelection(db: Db, window: int, chosen: seq<string>)
  {
    && |chosen| <= 50 && Distinct(chosen)
    && forall i :: 0 <= i < |chosen| ==> PastWindow(db, window, chosen[i])
  }
}
