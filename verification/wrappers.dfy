/** Optional values and results used throughout the model. */
module Wrappers {

  /** A value that may be absent: JavaScript's `null`/`undefined` made explicit. */
  datatype Option<+T> = None | Some(value: T)

  /** The outcome of an operation that can fail with an error value. */
  datatype Result<+R, +E> = Success(value: R) | Failure(error: E)
}
