/** Option and Result, the two shapes every fallible operation of the service returns. */
module Wrappers {

  datatype Option<+T> = None | Some(value: T)

  /** The value of a Go call that returns `(T, error)`: either the value or the error. */
  datatype Result<+T, +E> = Success(value: T) | Failure(error: E)
}
