/** Wrappers used across the model: Python's `None` and raised exceptions. */
module Wrappers {

  /** A value that may be absent (Python's `None`). */
  datatype Option<+T> = None | Some(value: T)

  /** The outcome of code that may raise: `Failure` carries the exception's name. */
  datatype Result<+T, +E> = Success(value: T) | Failure(error: E)
}
