/** Failure-carrying values used where the Go code returns an `error`. */
module Wrappers {

  datatype Option<+T> = None | Some(value: T)

  /** A value or the message of the `error` that replaced it. */
  datatype Result<+T> = Ok(value: T) | Err(message: string)

  /** The `error` result of a Go function that returns nothing else (`nil` is Pass). */
  datatype Outcome = Pass | Fail(message: string)
}
