/** Failure-carrying wrappers shared by every module of the model. */
module Wrappers {

  /** A value that may be absent: an optional field, a failed lookup. */
  datatype Option<+T> = None | Some(value: T)

  /** The outcome of an operation that either yields a value or an error. */
  datatype Result<+T, +E> = Ok(value: T) | Err(error: E)
}
