/** Failure-compatible wrappers used by the transformer model. */
module Wrappers {

  datatype Option<+T> = None | Some(value: T)

  /** A computation that yields a value or raises an error. */
  datatype Result<+T, +E> = Success(value: T) | Failure(error: E)

  /** A computation that only succeeds or raises an error. */
  datatype Outcome<+E> = Pass | Fail(error: E)
}
