/** Failure-carrying results for the converters: a Ruby exception becomes an `Err`. */
module Wrappers {

  /** A raised Ruby exception; only its message is kept. */
  datatype Failure = Failure(message: string)

  /** The outcome of a call that may raise. */
  datatype Result<+T> = Ok(value: T) | Err(error: Failure)

  /** A value that may be nil. */
  datatype Option<+T> = None | Some(value: T)
}
