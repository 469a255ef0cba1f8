/** The twelve statuses of a service order and the graph that connects them. */
module OrderStatus {
  import opened Prelude

  datatype Status =
    | Received
    | Diagnosing
    | PendingAuthorization
    | Authorized
    | InProgress
    | Completed
    | AwaitingPayment
    | PaymentRejected
    | Paid
    | Delivered
    | Canceled
    | AuthorizationDenied

  /** The inventory operations the stock service is asked for; `OpNone` stands for no operation. */
  datatype Operation = Reserve | ReservedDecrease | CancelReserved | CancelConfirmed | OpNone

  predicate IsFinal(s: Status) {
    s == Delivered || s == Canceled || s == AuthorizationDenied
  }

  predicate CanTransitionTo(s: Status, t: Status) {
    if t == Canceled then
      !IsFinal(s)
    else if IsFinal(s) then
      false
    else if t == AuthorizationDenied then
      s == PendingAuthorization
    else
      match s
      case Received => t == Diagnosing
      case Diagnosing => t == PendingAuthorization
      case PendingAuthorization => t == Authorized
      case Authorized => t == InProgress
      case InProgress => t == Completed
      case Completed => t == AwaitingPayment
      case AwaitingPayment => t == Paid || t == PaymentRejected
      case PaymentRejected => t == AwaitingPayment
      case Paid => t == Delivered
      case _ => false
  }

  function NextStatus(s: Status): Result<Status> {
    match s
    case Received => Ok(Diagnosing)
    case Diagnosing => Ok(PendingAuthorization)
    case PendingAuthorization => Ok(Authorized)
    case Authorized => Ok(InProgress)
    case InProgress => Ok(Completed)
    case Completed => Ok(AwaitingPayment)
    case AwaitingPayment => Ok(Paid)
    case Paid => Ok(Delivered)
    case _ => Err(NoNextStatus)
  }

  /** The inventory operation a status change asks for. */
  function DetermineInventoryOperation(from: Status, to: Status): Operation {
    if to == PendingAuthorization then
      Reserve
    else if to == Completed then
      ReservedDecrease
    else if to == Canceled && from in {PendingAuthorization, InProgress, Authorized, Diagnosing, Received} then
      CancelReserved
    else if to == Canceled && from in {Completed, AwaitingPayment, Paid} then
      CancelConfirmed
    else if to == AuthorizationDenied then
      CancelReserved
    else
      OpNone
  }

  // The names under which statuses are stored and shown.

  function Name(s: Status): string {
    match s
    case Received => "RECEIVED"
    case Diagnosing => "DIAGNOSING"
    case PendingAuthorization => "PENDING_AUTHORIZATION"
    case Authorized => "AUTHORIZED"
    case InProgress => "IN_PROGRESS"
    case Completed => "COMPLETED"
    case AwaitingPayment => "AWAITING_PAYMENT"
    case PaymentRejected => "PAYMENT_REJECTED"
    case Paid => "PAID"
    case Delivered => "DELIVERED"
    case Canceled => "CANCELED"
    case AuthorizationDenied => "AUTHORIZATION_DENIED"
  }

  function Parse(name: string): Result<Status> {
    if name == "RECEIVED" then Ok(Received)
    else if name == "DIAGNOSING" then Ok(Diagnosing)
    else if name == "PENDING_AUTHORIZATION" then Ok(PendingAuthorization)
    else if name == "AUTHORIZED" then Ok(Authorized)
    else if name == "IN_PROGRESS" then Ok(InProgress)
    else if name == "COMPLETED" then Ok(Completed)
    else if name == "AWAITING_PAYMENT" then Ok(AwaitingPayment)
    else if name == "PAYMENT_REJECTED" then Ok(PaymentRejected)
    else if name == "PAID" then Ok(Paid)
    else if name == "DELIVERED" then Ok(Delivered)
    else if name == "CANCELED" then Ok(Canceled)
    else if name == "AUTHORIZATION_DENIED" then Ok(AuthorizationDenied)
    else Err(InvalidStatus)
  }

  lemma NamesRoundTrip(s: Status, name: string)
    ensures Parse(Name(s)) == Ok(s)
    ensures Parse(name) == Ok(s) <==> name == Name(s)
  {
    assert |Name(Received)| == 8 && |Name(Diagnosing)| == 10 && |Name(PendingAuthorization)| == 21;
    assert |Name(Authorized)| == 10 && |Name(InProgress)| == 11 && |Name(Completed)| == 9;
    assert |Name(AwaitingPayment)| == 16 && |Name(PaymentRejected)| == 16 && |Name(Paid)| == 4;
    assert |Name(Delivered)| == 9 && |Name(Canceled)| == 8 && |Name(AuthorizationDenied)| == 20;
    assert Name(Diagnosing)[0] != Name(Authorized)[0];
    assert Name(Received)[0] != Name(Canceled)[0];
    assert Name(Completed)[0] != Name(Delivered)[0];
    assert Name(AwaitingPayment)[0] != Name(PaymentRejected)[0];
  }

  lemma UnreadStatus(name: string)
    ensures Parse(name).Err? ==> Parse(name).error == InvalidStatus
  {
  }

  /** A text names a status exactly if it is read back as one. */
  lemma ParsedNames(name: string)
    ensures Parse(name).Ok? ==> name == Name(Parse(name).value)
    ensures forall s :: name == Name(s) ==> Parse(name) == Ok(s)
  {
    hide Parse, Name;
    if Parse(name).Ok? {
      NamesRoundTrip(Parse(name).value, name);
    }
    forall s ensures name == Name(s) ==> Parse(name) == Ok(s) {
      NamesRoundTrip(s, name);
    }
  }

  /** How far along the normal flow a status lies: the number of changes a run without payment
      retries has made on arriving there (at most that number for the two early exits). */
  function Rank(s: Status): nat {
    match s
    case Received => 0
    case Diagnosing => 1
    case PendingAuthorization => 2
    case Authorized => 3
    case InProgress => 4
    case Completed => 5
    case AwaitingPayment => 6
    case PaymentRejected => 7
    case Paid => 7
    case Delivered => 8
    case Canceled => 8
    case AuthorizationDenied => 3
  }

  /** Along every edge but the payment retry the rank grows, by exactly one unless the order is canceled. */
  lemma EdgesClimb(s: Status, t: Status)
    requires CanTransitionTo(s, t)
    ensures (s == PaymentRejected && t == AwaitingPayment) || Rank(t) > Rank(s)
    ensures t == Canceled || s == PaymentRejected || Rank(t) == Rank(s) + 1
  {
  }

  /** The final statuses are exactly the ones that no status change leaves. */
  lemma FinalMeansNoWayOut(s: Status)
    ensures IsFinal(s) <==> forall t :: !CanTransitionTo(s, t)
  {
    if !IsFinal(s) {
      assert CanTransitionTo(s, Canceled);
    }
  }

  /** The flow proposed to the user follows the graph, and it stops exactly at the final statuses
      and at a rejected payment, whose way on is a retry. */
  lemma NextStatusFollowsTheGraph(s: Status)
    ensures NextStatus(s).Ok? ==> CanTransitionTo(s, NextStatus(s).value)
    ensures NextStatus(s).Err? <==> IsFinal(s) || s == PaymentRejected
  {
  }
}
