/** Optional values and results with an error message, used across the model. */
module Wrappers {

  /** A value that may be absent: JavaScript's `null`/`undefined` slots. */
  datatype Option<+T> = None | Some(value: T)

  /** The outcome of an operation that can throw: a value or the thrown message. */
  datatype Result<+T> = Ok(value: T) | Err(message: string)
}
