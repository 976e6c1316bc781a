/** Failure-carrying values shared by every module of the model. */
module Wrappers {

  /** A value that may be absent (Go's zero value / nil pointer on an error path). */
  datatype Option<+T> = None | Some(value: T)

  /** Go's `(value, error)` pair: exactly one of the two is meaningful. */
  datatype Result<+T, +E> = Success(value: T) | Failure(error: E)
}
