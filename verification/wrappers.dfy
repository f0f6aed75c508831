/** Failure-carrying wrappers shared by the rest of the model. */
module Wrappers {

  /** A value that may be absent (a Go nil map, an unimplemented method, no output). */
  datatype Option<+T> = None | Some(value: T)

  /** Either a value or an error, in the style of a Go `(value, error)` pair. */
  datatype Result<+T, +E> = Ok(value: T) | Err(error: E)
}
