/** The Option and Result datatypes used throughout the model. */
module Wrappers {

  /** A value that may be absent (Go's nil pointer or nil interface). */
  datatype Option<+T> = None | Some(value: T)

  /** The outcome of a Go call returning `(T, error)`. */
  datatype Result<+T, +E> = Success(value: T) | Failure(error: E)
}
