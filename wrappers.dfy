/** Option and Result types shared by the model. */
module Wrappers {

  /** An optional value: the Swift `T?`. */
  datatype Option<+T> = None | Some(value: T)

  /** A computation that either produces a value or stops with an error. */
  datatype Result<+R, +E> = Success(value: R) | Failure(error: E)
}
