/** Optional values and results with an error, as used throughout the model. */
module Wrappers {

  /** A value that may be absent: an unset storage slot, a suppressed payload. */
  datatype Option<+T> = None | Some(value: T)

  /** The outcome of an operation that can be refused with an error. */
  datatype Result<+R, +E> = Success(value: R) | Failure(error: E)
}
