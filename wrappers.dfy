/** Option and Result. */
module Wrappers {

  /** A value that may be missing: the model's stand-in for a Go nil pointer. */
  datatype Option<+T> = None | Some(value: T)

  /** Either a computed value or the reason it could not be computed. */
  datatype Result<+R, +E> = Ok(value: R) | Err(error: E)
}
