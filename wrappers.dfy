/** Option and Result, shared by every module of the model. */
module Wrappers {

  datatype Option<+T> = None | Some(value: T)

  /** A value, or the message of the exception raised instead. */
  datatype Result<+T> = Ok(value: T) | Err(error: string)
}
