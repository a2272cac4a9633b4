/** Option, Result and Outcome: Java's nullable values and thrown exceptions as data. */
module Wrappers {

  /** A value that may be absent (Java `null` / `Optional.empty()`). */
  datatype Option<+T> = None | Some(value: T)

  /** The value a call returns, or the exception it throws. */
  datatype Result<+T, +E> = Success(value: T) | Failure(error: E)

  /** A call that returns nothing, or the exception it throws. */
  datatype Outcome<+E> = Pass | Fail(error: E)
}
