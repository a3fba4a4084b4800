/** Option and Result values, and the error value that the upload's promises reject with. */
module Wrappers {

  datatype Option<+T> = None | Some(value: T)

  /** An error value as the source throws or rejects with it: only its message is observable. */
  datatype Error = Error(message: string)

  /** The outcome of an operation that may throw or reject. */
  datatype Result<+T> = Ok(value: T) | Err(error: Error)
}
