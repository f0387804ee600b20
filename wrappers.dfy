/** Failure-carrying values; a Go `error` is modelled by the text it prints. */
module Wrappers {

  datatype Option<+T> = None | Some(value: T)

  /** A Go `(T, error)` pair: a value, or the text of the error. */
  datatype Result<+T> = Ok(value: T) | Err(error: string)

  /** A Go function that returns only an `error`: nil, or its text. */
  datatype Outcome = Pass | Fail(error: string)
}
