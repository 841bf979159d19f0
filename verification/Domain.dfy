/** The published payment state machine. */
module PaymentDomain {
  import opened Common

  datatype State =
    | Created
    | RequiresAction
    | PendingCustomerAction
    | Processing
    | Authorized
    | AuthorizationReversed
    | Captured
    | Failed
    | AutoRefunded

  datatype Event =
    | CustomerActionRequired
    | CustomerActionComplete
    | ProcessingStarted
    | AuthSuccess
    | AuthFailed
    | AuthReversed
    | DoCapture
    | CaptureExpiry

  function Transition(from: State, ev: Event): Option<State>
  {
    match (from, ev)
    case (Created, AuthSuccess) => Some(Authorized)
    case (Created, AuthFailed) => Some(Failed)
    case (Created, CustomerActionRequired) => Some(RequiresAction)
    case (RequiresAction, CustomerActionComplete) => Some(Authorized)
    case (RequiresAction, AuthFailed) => Some(Failed)
    case (PendingCustomerAction, ProcessingStarted) => Some(Processing)
    case (PendingCustomerAction, DoCapture) => Some(Captured)
    case (PendingCustomerAction, AuthFailed) => Some(Failed)
    case (Processing, DoCapture) => Some(Captured)
    case (Processing, AuthFailed) => Some(Failed)
    case (Authorized, AuthReversed) => Some(AuthorizationReversed)
    case (Authorized, DoCapture) => Some(Captured)
    case (Authorized, CaptureExpiry) => Some(AutoRefunded)
    case _ => None
  }

  /** A status write the table allows, or one that changes nothing. */
  predicate EdgeOrStutter(from: State, to: State)
  {
    from == to || exists ev :: Transition(from, ev) == Some(to)
  }
  const EDGES := {
    (Created, RequiresAction), (Created, Authorized), (Created, Failed),
    (RequiresAction, Authorized), (RequiresAction, Failed),
    (PendingCustomerAction, Processing), (PendingCustomerAction, Captured), (PendingCustomerAction, Failed),
    (Processing, Captured), (Processing, Failed),
    (Authorized, AuthorizationReversed), (Authorized, Captured), (Authorized, AutoRefunded)
  }

  lemma EdgesAre(from: State, to: State)
    ensures EdgeOrStutter(from, to) <==> from == to || (from, to) in EDGES
  {
    if (from, to) in EDGES {
      var ev := match to
        case RequiresAction => CustomerActionRequired
        case Authorized => if from == Created then AuthSuccess else CustomerActionComplete
        case Processing => ProcessingStarted
        case Captured => DoCapture
        case AuthorizationReversed => AuthReversed
        case AutoRefunded => CaptureExpiry
        case _ => AuthFailed;
      assert Transition(from, ev) == Some(to);
    }
  }
}

/** The published order state machine. */
module OrderDomain {
  import opened Common

  datatype State = Created | Attempted | Paid | Failed | Expired

  datatype Event = AttemptedEvent | PaidEvent | FailedEvent | ExpiredEvent

  function Transition(from: State, ev: Event): Option<State>
  {
    match (from, ev)
    case (Created, AttemptedEvent) => Some(Attempted)
    case (Created, ExpiredEvent) => Some(Expired)
    case (Attempted, PaidEvent) => Some(Paid)
    case (Attempted, FailedEvent) => Some(State.Failed)
    case _ => None
  }

  predicate EdgeOrStutter(from: State, to: State)
  {
    from == to || exists ev :: Transition(from, ev) == Some(to)
  }
  const EDGES := {(Created, Attempted), (Created, Expired), (Attempted, Paid), (Attempted, State.Failed)}

  lemma EdgesAre(from: State, to: State)
    ensures EdgeOrStutter(from, to) <==> from == to || (from, to) in EDGES
  {
    if (from, to) in EDGES {
      var ev := match to
        case Attempted => AttemptedEvent
        case Expired => ExpiredEvent
        case Paid => PaidEvent
        case _ => FailedEvent;
      assert Transition(from, ev) == Some(to);
    }
  }
}
