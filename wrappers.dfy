/** Failure-carrying values used in place of Java's null references and exceptions. */
module Wrappers {

  /** A value that may be absent: a Java reference that may be null. */
  datatype Option<+T> = None | Some(value: T)

  /** The outcome of an operation that may throw: its value, or the exception's message. */
  datatype Result<+R, +E> = Success(value: R) | Failure(error: E)

  /** A check that passes, or fails with the exception's message. */
  datatype Outcome<+E> = Pass | Fail(error: E)
}
