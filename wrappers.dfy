/** Option and Result values standing in for Python's None and for caught exceptions. */
module Wrappers {

  /** A value that may be absent (Python `None`, or a call whose exception was caught). */
  datatype Option<+T> = None | Some(value: T)

  /** The outcome of a call that may raise. */
  datatype Result<+T, +E> = Ok(value: T) | Err(error: E)
}
