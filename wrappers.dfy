/** Failure-compatible wrappers: a Python value that may be `None`, and a call that may raise. */
module Wrappers {

  /** A Python value that may be `None`. */
  datatype Option<+T> = None | Some(value: T)

  /** The outcome of a Python call: a returned value or a raised exception. */
  datatype Result<+T, +E> = Success(value: T) | Failure(error: E)
}
