/** Option and Result, the failure-carrying values used throughout the model. */
module Wrappers {

  datatype Option<+T> = None | Some(value: T)

  /** A settled promise: resolved with a value or rejected with an error. */
  datatype Result<+R, +E> = Success(value: R) | Failure(error: E)
}
