/** Failure-compatible optional values and results used throughout the model. */
module Wrappers {

  datatype Option<+T> = None | Some(value: T)

  /** A computation that either succeeds with a value or fails with an error,
      the way a Python call either returns or raises. */
  datatype Result<+R, +E> = Success(value: R) | Failure(error: E)
}
