/** Failure-carrying values shared by the other modules. */
module Wrappers {

  /** A value that may be absent: Go's `(T, error)` pairs whose error is dropped. */
  datatype Option<+T> = None | Some(value: T)

  /** A value or an error: Go's `(T, error)` pairs. */
  datatype Result<+T, +E> = Ok(value: T) | Err(error: E)

  /** A bare Go `error`: nil (`Pass`) or a failure. */
  datatype Outcome<+E> = Pass | Fail(error: E)
}
