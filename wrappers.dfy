/** Failure-compatible wrappers used throughout the model. */
module Wrappers {

  /** A value that may be missing (Python's `None`). */
  datatype Option<T> = None | Some(value: T)

  /** The outcome of a call that may raise: the value, or the text of the exception. */
  datatype Result<T, E> = Success(value: T) | Failure(error: E)
}
