/** Optional values and results shared by the models of the three components. */
module Wrappers {

  /** A value that may be `undefined` in the source. */
  datatype Option<+T> = None | Some(value: T)

  /** The outcome of an operation that can throw in the source. */
  datatype Result<+T, +E> = Success(value: T) | Failure(error: E)
}
