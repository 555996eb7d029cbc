/** Optional values and results that carry an error. */
module Wrappers {

  /** A value that may be absent (Python's `Optional[...]`). */
  datatype Option<+T> = None | Some(value: T)

  /** The outcome of an operation that raises on bad input. */
  datatype Result<+T, +E> = Success(value: T) | Failure(error: E)
}
