/** Failure-carrying values used in place of the source's null references and exceptions. */
module Wrappers {

  /** A value that may be absent (a null reference, an empty decode). */
  datatype Option<+T> = None | Some(value: T)

  /** A computed value, or the error an operation would have thrown. */
  datatype Result<+T, +E> = Success(value: T) | Failure(error: E)

  /** A void operation that either completes or throws an error. */
  datatype Outcome<+E> = Pass | Fail(error: E)
}
