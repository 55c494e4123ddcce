/** Failure-carrying return values: the Go `error` results of the webhook client. */
module Wrappers {

  /** A value that may be absent (a nil pointer or buffer). */
  datatype Option<+T> = None | Some(value: T)

  /** The result of an operation that returns only an `error`: nil (`Pass`) or an error of kind `E`. */
  datatype Outcome<+E> = Pass | Fail(error: E)

  /** The result of an operation that returns a value and an `error`. */
  datatype Result<+T, +E> = Success(value: T) | Failure(error: E)
}
