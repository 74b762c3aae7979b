/** Option and Result, the two wrappers every component of the model returns. */
module Wrappers {

  datatype Option<+T> = None | Some(value: T)

  /** The value an operation returns, or the error code it throws. */
  datatype Result<+T> = Ok(value: T) | Err(error: string)
}
