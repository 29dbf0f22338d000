/** Option and Result, the two wrappers the model uses in place of Python's `None` and
    raised exceptions. */
module Wrappers {

  /** A value that may be absent (Python's `Optional[T]`). */
  datatype Option<+T> = None | Some(value: T)

  /** The outcome of an operation that raises on failure. */
  datatype Result<+R, +E> = Success(value: R) | Failure(error: E)
}
