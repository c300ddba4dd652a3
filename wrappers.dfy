/** Wrappers for Java null references and exceptions. */
module Wrappers {

  /** A nullable reference or an absent value. */
  datatype Option<+T> = None | Some(value: T)

  /** A value, or the exception the Java method throws instead of returning it. */
  datatype Result<+T, +E> = Success(value: T) | Failure(error: E)

  /** The outcome of a Java method returning void: normal completion, or the exception it throws. */
  datatype Outcome<+E> = Pass | Fail(error: E)
}
