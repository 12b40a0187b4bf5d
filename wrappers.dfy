/** Failure-compatible wrappers shared by the whole model. */
module Wrappers {

  /** An optional value: Python's `None`, a missing JSON key or a null reference. */
  datatype Option<+T> = None | Some(value: T)

  /** The outcome of an operation that can raise an error of type E. */
  datatype Result<+T, +E> = Success(value: T) | Failure(error: E)
}
