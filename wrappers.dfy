/** Option and Result, the two failure-carrying shapes the model uses. */
module Wrappers {

  datatype Option<+T> = None | Some(value: T)

  /** A Python operation that either produces a value or raises `error`. */
  datatype Result<+R, +E> = Success(value: R) | Failure(error: E)
}
