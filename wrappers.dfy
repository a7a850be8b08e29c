/** Option, Error and Result, shared by every module of the model. */
module Wrappers {

  /** `undefined`/`null` versus a present value. */
  datatype Option<+T> = None | Some(value: T)

  /** A thrown JavaScript error, reduced to the `message` that callers read. */
  datatype Error = Error(message: string)

  /** The outcome of an awaited call: a resolved value or a thrown error. */
  datatype Result<+T> = Ok(value: T) | Err(error: Error)
}
