/** Wrappers for a Java `null`, a thrown exception and a void call that may throw. */
module Wrappers {

  /** A possibly absent value (Java's `null`). */
  datatype Option<+T> = None | Some(value: T)

  /** A value, or the exception that was thrown instead. */
  datatype Result<+T, +E> = Ok(value: T) | Err(error: E)

  /** A call that returns nothing, or the exception that was thrown instead. */
  datatype Outcome<+E> = Pass | Fail(error: E)
}
