/** Failure-carrying result types used in place of the source's exceptions. */
module Wrappers {

  datatype Option<+T> = None | Some(value: T)

  /** A value or the error the source would raise instead of returning it. */
  datatype Result<+T, +E> = Success(value: T) | Failure(error: E)

  /** A check that either passes (the source returns True) or raises `error`. */
  datatype Outcome<+E> = Pass | Fail(error: E)
}
