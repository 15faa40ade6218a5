/** Option and Result, the two failure-carrying shapes the model needs. */
module Wrappers {

  /** A value that may be absent: JavaScript's `null`/`NaN` results. */
  datatype Option<+T> = None | Some(value: T)

  /** The outcome of an operation that can throw: a value, or the error message. */
  datatype Result<+T> = Ok(value: T) | Err(message: string)
}
