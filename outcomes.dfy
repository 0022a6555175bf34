/** Option and Result values that stand for Java's nullable references and thrown exceptions. */
module Outcomes {

  /** A value that may be absent (a Java reference that may be null). */
  datatype Option<+T> = None | Some(value: T)

  /** The value an operation returns, or the exception it throws. */
  datatype Result<+T, +E> = Ok(value: T) | Err(error: E)
}
