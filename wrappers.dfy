/** Failure-carrying wrappers shared by every module of the dashboard model. */
module Wrappers {

  /** A value that may be absent: a missing form key, a failed lookup, `undefined`. */
  datatype Option<+T> = None | Some(value: T)

  /** The outcome of a handler that either produces a value or rejects with a reason. */
  datatype Result<+T, +E> = Ok(value: T) | Err(error: E)
}
