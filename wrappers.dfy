/** Failure-compatible result types used for the source's exceptions and error returns. */
module Wrappers {

  datatype Option<+T> = None | Some(value: T)

  /** A value, or the error the source raises instead of returning one. */
  datatype Result<+T, +E> = Success(value: T) | Failure(error: E)

  /** Completion of an operation that returns nothing, or the error it raises. */
  datatype Outcome<+E> = Pass | Fail(error: E)
}
