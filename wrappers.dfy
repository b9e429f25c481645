/** Option and Result, the two failure-carrying datatypes the model uses. */
module Wrappers {

  datatype Option<+T> = None | Some(value: T)

  /** A Go call that returns either a value or a non-nil error. */
  datatype Result<+T, +E> = Success(value: T) | Failure(error: E)
}
