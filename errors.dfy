/**
 * The error outcomes the client can produce. ScaleDownError and its two
 * subclasses (AuthenticationError, APIError) come from the package's own
 * exception module; ValueError, TypeError, pydantic's ValidationError and
 * AttributeError are the Python errors the client lets through to its caller.
 */
module Errors {

  datatype Option<+T> = None | Some(value: T)

  /** A failure-compatible result, so that `:-` propagates the first error. */
  datatype Result<+T, +E> = Ok(value: T) | Err(error: E) {
    predicate IsFailure() {
      Err?
    }

    function PropagateFailure<U>(): Result<U, E>
      requires Err?
    {
      Err(error)
    }

    function Extract(): T
      requires Ok?
    {
      value
    }
  }

  /** One entry of a pydantic ValidationError: the field and what was wrong with it. */
  datatype FieldError = FieldError(field: string, message: string)

  datatype Error =
    | ValueError(message: string)
    | TypeError(message: string)
    | AuthenticationError(message: string)
    | APIError(message: string)
    | ValidationError(errors: seq<FieldError>)
    | AttributeError(message: string)

  /** The errors that derive from the package's base class ScaleDownError. */
  predicate IsScaleDownError(e: Error) {
    e.AuthenticationError? || e.APIError?
  }
}
