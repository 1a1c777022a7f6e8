/** `Option` and `Outcome`, shared by the two player front ends. */
module Outcomes {

  /** A value that may be absent (a Java reference that may be null). */
  datatype Option<+T> = None | Some(value: T)

  /** The result of an operation that returns normally or throws `error`. */
  datatype Outcome<+E> = Pass | Fail(error: E)
}
