/** Option and Result, the failure-carrying values used throughout the model. */
module Wrappers {

  datatype Option<+T> = None | Some(value: T)

  /** The value of a call that either produces `value` or fails with `error`. */
  datatype Result<+R, +E> = Success(value: R) | Failure(error: E)
}
