/** Wrappers: a value that may be missing, a result that may
    be an error, and an outcome of an operation that returns nothing. */
module Wrappers {

  /** A Java reference that may be null, or an optional value. */
  datatype Option<+T> = None | Some(value: T)

  /** A return value or the exception that was thrown instead. */
  datatype Result<+R, +E> = Success(value: R) | Failure(error: E)

  /** A `void` call that either returned normally or threw. */
  datatype Outcome<+E> = Pass | Fail(error: E)
}
