/** Failure-carrying values used across the model: a missing value, and an operation that either
    returns a value or raises one of a few exceptions. */
module Wrappers {

  datatype Option<+T> = None | Some(value: T)

  datatype Result<+T, +E> = Ok(value: T) | Err(error: E)
}
