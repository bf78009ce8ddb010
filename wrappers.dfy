/** Option and Result values used for the nullable fields and the error paths of the model. */
module Wrappers {

  /** A value that may be absent: JavaScript's `null` for typed fields. */
  datatype Option<+T> = None | Some(value: T)

  /** Either a value or an error message. */
  datatype Result<+R, +E> = Ok(value: R) | Err(error: E)
}
