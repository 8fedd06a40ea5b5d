/** Option and Result, the two failure-carrying values used throughout the model. */
module Wrappers {

  /** A value that may be absent (JavaScript's `undefined`). */
  datatype Option<+T> = None | Some(value: T)

  /** The outcome of a stage: a value, or the error that ends the current attempt.
      Errors are the `message` of the JavaScript `Error` (or the transport's own error value). */
  datatype Result<+T> = Ok(value: T) | Err(error: string)
}
