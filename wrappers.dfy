/** Failure-carrying results shared by every module of the model. */
module Wrappers {

  datatype Option<T> = None | Some(value: T)

  /** A value, or the text of the Go `error` that replaced it. */
  datatype Result<T> = Ok(value: T) | Err(message: string)

  /** A Go function that returns only an `error`: nil (Pass) or an error text. */
  datatype Outcome = Pass | Fail(message: string)
}
