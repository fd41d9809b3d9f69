/** Option and Result, the failure-carrying datatypes the rest of the model returns. */
module Wrappers {

  datatype Option<+T> = None | Some(value: T)

  /** A value, or the error that Ruby would have raised or returned instead. */
  datatype Result<+R, +E> = Success(value: R) | Failure(error: E)
}
