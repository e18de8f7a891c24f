/** Option and Result, the failure-carrying values used across the model. */
module Wrappers {

  /** A value that may be absent: JavaScript's null/undefined, a missing key or row. */
  datatype Option<+T> = None | Some(value: T)

  /** The outcome of an operation that can fail. */
  datatype Result<+R, +E> = Success(value: R) | Failure(error: E)
}
