/** Outcomes of the order services: optional values, the distinct business
    failures the services raise, and the exception class each failure
    surfaces as. */
module Outcomes {

  datatype Option<T> = None | Some(value: T)

  /** The exception classes the services throw: not-found (EntityNotFoundException
      or an HTTP 404 ResponseStatusException), IllegalStateException and
      IllegalArgumentException. */
  datatype ErrorKind = NotFound | IllegalState | IllegalArgument

  /** One constructor per distinct failure the services can raise. */
  datatype Failure =
    | OrderNotFound
    | DishNotFound
    | LineNotFound
    | NoClientRegistered
    | NoOrderWithStatus
    | NoDeliveredOrder
    | AddToNonDraft
    | RemoveFromNonDraft
    | FinalizeNonDraft
    | MissingClientOrAddress
    | AlreadyOutOfKitchen
    | NotYetFinalized
    | CannotRegressAfterDispatch
    | AlreadyAtStart
    | NonPositiveRemoval
  {
    /** The exception class this failure is raised as: a missing entity or an
        empty query is not-found, the only argument check is the removal
        quantity, and every status or client guard is illegal-state. */
    function Kind(): (k: ErrorKind)
      ensures k == IllegalArgument <==> this == NonPositiveRemoval
      ensures (OrderNotFound? || DishNotFound? || LineNotFound?) ==> k == NotFound
      ensures (NoClientRegistered? || NoOrderWithStatus? || NoDeliveredOrder?) ==> k == NotFound
      ensures MissingClientOrAddress? ==> k == IllegalState
      ensures (AddToNonDraft? || RemoveFromNonDraft? || FinalizeNonDraft?) ==> k == IllegalState
      ensures (AlreadyOutOfKitchen? || NotYetFinalized? || CannotRegressAfterDispatch? || AlreadyAtStart?) ==> k == IllegalState
    {
      match this
      case OrderNotFound => NotFound
      case DishNotFound => NotFound
      case LineNotFound => NotFound
      case NoClientRegistered => NotFound
      case NoOrderWithStatus => NotFound
      case NoDeliveredOrder => NotFound
      case AddToNonDraft => IllegalState
      case RemoveFromNonDraft => IllegalState
      case FinalizeNonDraft => IllegalState
      case MissingClientOrAddress => IllegalState
      case AlreadyOutOfKitchen => IllegalState
      case NotYetFinalized => IllegalState
      case CannotRegressAfterDispatch => IllegalState
      case AlreadyAtStart => IllegalState
      case NonPositiveRemoval => IllegalArgument
    }
  }

  /** Either the value an operation returns or the failure it raised; a failed
      operation leaves every order as it was. */
  datatype Result<T> = Ok(value: T) | Err(error: Failure)
}
