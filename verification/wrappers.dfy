/** Failure-carrying values used across the model: a missing value, and a
    computation that either yields a value or stops with an error (the
    model's stand-in for a Java exception). */
module Wrappers {

  datatype Option<+T> = None | Some(value: T)

  datatype Result<+R, +E> = Success(value: R) | Failure(error: E)
}
