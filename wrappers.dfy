/** Failure-carrying results shared by the unit parser and the area-directory decoder. */
module Wrappers {

  /** The outcome of an operation that either yields a value or raises an error. */
  datatype Result<+T, +E> = Ok(value: T) | Err(error: E)

  datatype Option<+T> = None | Some(value: T)
}
