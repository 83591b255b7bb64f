/** Option and Result datatypes shared by the other modules. */
module Wrappers {

  /** A value that may be absent (Go's nil pointer or not-yet-computed field). */
  datatype Option<+T> = None | Some(value: T)

  /** The outcome of an operation that either yields a value or reports an error. */
  datatype Result<+R, +E> = Success(value: R) | Failure(error: E)
}
