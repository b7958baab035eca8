/** Failure-carrying values standing in for Go's `(value, error)` returns and
    nillable pointers. A Go `error` is represented by its `Error()` text. */
module Wrappers {

  datatype Option<+T> = None | Some(value: T)

  /** The result of a Go call that returns a value and an error. */
  datatype Result<+T, +E> = Ok(value: T) | Err(error: E)

  /** The result of a Go call that returns only an error (nil on success). */
  datatype Outcome<+E> = Pass | Fail(error: E)
}
