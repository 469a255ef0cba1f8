/** Values shared by every module: optional values, outcomes and the error values of the domain. */
module Prelude {

  datatype Option<+T> = None | Some(value: T)

  datatype Result<+T> = Ok(value: T) | Err(error: Error)

  /** Points in time; only their identity matters here. */
  type Time = int

  datatype Error =
    | InvalidServiceOrderId
    | InvalidCustomerId
    | InvalidVehicleId
    | VehicleDoesNotBelongToCustomer
    | InvalidStatus
    | InvalidStatusTransition
    | ServiceOrderNotFound
    | ServiceOrderDeleted
    | NoNextStatus
    | InvalidPaymentPreference
    | InvalidPaymentId
    | InvalidPaymentUrl
    | InvalidItemId
    | InvalidItemType
    | InvalidReferenceId
    | InvalidItemName
    | InvalidQuantity
    | InvalidUnitPrice
    | ItemNotFound
    | CannotModifyClosedOrder
    | CannotModifyItemsAfterPending
    | InvalidHistoryId
    | ForbiddenAccess
    | InvalidSagaId
    | SagaAlreadyInProgress
    | UnsupportedOperation
    | MalformedWebhook
    | MalformedMessage
    | MissingReceipt
    | LookupFailed      // a customer, vehicle, product or service could not be read
    | ProviderFailed    // the payment provider refused or did not answer
    | WriteFailed       // a database, history or queue write did not go through
    | MalformedId       // an identifier is not a UUID

  function OrElse<T>(a: Option<T>, b: Option<T>): Option<T> {
    if a.Some? then a else b
  }

  /** The text worth recording: an absent or empty text is not written to the history. */
  function NonEmpty(s: Option<string>): Option<string> {
    if s == Some("") then None else s
  }

  /** A UUID as text, in the one spelling in which they are read back. */
  predicate IsUuid(s: string) {
    |s| == 36 && forall i | 0 <= i < 36 ::
      if i in {8, 13, 18, 23} then s[i] == '-' else '0' <= s[i] <= '9' || 'a' <= s[i] <= 'f'
  }
}
