/** Failure-compatible wrappers shared by the whole model. */
module Wrappers {

  /** A Go pointer or optional argument that may be nil. */
  datatype Option<+T> = None | Some(value: T)

  /** A Go `(value, error)` pair where exactly one side is meaningful. */
  datatype Result<+T, +E> = Ok(value: T) | Err(error: E)

  /** A Go call that returns only an `error`. */
  datatype Outcome<+E> = Pass | Fail(error: E)
}
