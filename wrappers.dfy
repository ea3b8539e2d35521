/** Failure-compatible wrappers used across the model: `Option` for values that
    may be null or undefined, `Result` for calls that return a value or throw,
    and `Outcome` for void calls that may throw. */
module Wrappers {

  datatype Option<+T> = None | Some(value: T)

  datatype Result<+T, +E> = Success(value: T) | Failure(error: E)

  datatype Outcome<+E> = Pass | Fail(error: E)
}
