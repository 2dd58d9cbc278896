/** Optional values and results, used in place of Python's None and raised exceptions. */
module Wrappers {

  /** A value that may be absent (Python's `None`). */
  datatype Option<+T> = None | Some(value: T)

  /** The outcome of an operation that may raise: a value or an error. */
  datatype Result<+R, +E> = Success(value: R) | Failure(error: E)
}
