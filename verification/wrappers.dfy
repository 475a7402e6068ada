/** Failure-carrying result types shared by the other modules. */
module Wrappers {

  datatype Option<+T> = None | Some(value: T)

  /** The outcome of an operation that can fail: a value or the reason it did not produce one. */
  datatype Result<+R, +E> = Success(value: R) | Failure(error: E)
}
