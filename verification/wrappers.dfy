/** Failure-compatible result types shared by every module of the model. */
module Wrappers {

  /** A value that may be absent; models Python's `None`. */
  datatype Option<+T> = None | Some(value: T)

  /** Either a value or an error; models a Python call that may raise. */
  datatype Result<+T, +E> = Ok(value: T) | Err(error: E)
}
