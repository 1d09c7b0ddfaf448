/** The two failure-carrying values used throughout the model. */
module Wrappers {
  /** Python's `None`-or-value. */
  datatype Option<+T> = None | Some(value: T)

  /** A returned value, or the exception that replaced it. */
  datatype Result<+T, +E> = Success(value: T) | Failure(error: E)
}
