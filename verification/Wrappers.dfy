/** Failure-compatible results and the gateway's stable error codes (errors.py). */
module Wrappers {

  datatype Option<+T> = None | Some(value: T)

  datatype ErrorCode =
    | INVALID_ARGUMENT
    | UNKNOWN_ELEMENT
    | MISSING_REQUIRED_ELEMENT
    | INVALID_ELEMENT_TYPE
    | INVALID_ENUM_VALUE
    | INVALID_CHOICE
    | REQUEST_TOO_LARGE
    | RESPONSE_TOO_LARGE
    | SUBSCRIPTION_NOT_FOUND
    | SUBSCRIPTION_EXPIRED
    | SUBSCRIPTION_LIMIT_EXCEEDED
    | CURSOR_INVALID
    | QUEUE_FULL
    | RATE_LIMITED
    | LICENSE_BUDGET_EXCEEDED
    | NORMALIZER_NOT_AVAILABLE
    | BLOOMBERG_SUBSCRIPTION_FAILED
    | BLOOMBERG_NOT_ENTITLED
    | BLOOMBERG_REQUEST_FAILED
    | TIMEOUT
    | CANCELLED
    | INTERNAL_ERROR

  datatype Result<+T> = Ok(value: T) | Err(error: ErrorCode) {
    predicate IsFailure() {
      Err?
    }

    function PropagateFailure<U>(): Result<U>
      requires Err?
    {
      Err(error)
    }

    function Extract(): T
      requires Ok?
    {
      value
    }
  }
}
