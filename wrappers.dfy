/** Failure-carrying values. Every exception the handlers catch is reduced to
    the text `str(e)` they put in the error body, so a failure carries a string. */
module Wrappers {

  datatype Option<+T> = None | Some(value: T)

  datatype Result<+T> = Ok(value: T) | Err(message: string)

  /** The outcome of a call that returns nothing the handler uses. */
  datatype Outcome = Pass | Fail(message: string)
}
