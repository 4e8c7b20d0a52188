/** Option, Result and Outcome values used for the absent fields of a document and for the
    answers of the route handlers. */
module Wrappers {

  datatype Option<+T> = None | Some(value: T)

  datatype Result<+T, +E> = Ok(value: T) | Err(error: E)

  /** The answer of a handler that reports success without a value. */
  datatype Outcome<+E> = Pass | Fail(error: E)
}
