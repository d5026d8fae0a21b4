/** Success/failure wrappers standing for Go's nil pointers and `(value, error)` returns. */
module Wrappers {

  /** A Go pointer that may be nil. */
  datatype Option<+T> = None | Some(value: T)

  /** A Go `(T, error)` pair: either a value or an error message. */
  datatype Result<+T> = Ok(value: T) | Err(msg: string)

  /** A Go function that returns only an `error`. */
  datatype Outcome = Pass | Fail(msg: string)
}
