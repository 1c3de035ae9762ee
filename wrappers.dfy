/** Optional values and results with an error, used across the model. */
module Wrappers {

  /** A value that may be absent: Python's `None` or a dictionary key that is not set. */
  datatype Option<+T> = None | Some(value: T)

  /** The outcome of an operation that may raise an exception instead of returning. */
  datatype Result<+R, +E> = Success(value: R) | Failure(error: E)
}
