/** Option and Result, shared by every module of the model. */
module Wrappers {

  datatype Option<+T> = None | Some(value: T)

  /** A computation that either produces a value or raises the given error. */
  datatype Result<+T, +E> = Ok(value: T) | Err(error: E)
}
