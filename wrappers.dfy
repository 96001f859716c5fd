/** Option and Result, shared by every module of the model. */
module Wrappers {

  /** A value that may be missing: a read that raised, an address that did not convert. */
  datatype Option<+T> = None | Some(value: T)

  /** The outcome of an operation that either returns a value or raises a tagged error. */
  datatype Result<+T, +E> = Ok(value: T) | Err(error: E)
}
