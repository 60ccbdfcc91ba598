/** Option and Result values standing in for the source's nulls and exceptions. */
module Wrappers {

  /** A value or nothing; `None` models a `null` reference in the source. */
  datatype Option<+T> = None | Some(value: T)

  /** A value or the error that the source raises as an exception. */
  datatype Result<+T, +E> = Success(value: T) | Failure(error: E)

  /** Success without a value, or the error raised. */
  datatype Outcome<+E> = Pass | Fail(error: E)
}
