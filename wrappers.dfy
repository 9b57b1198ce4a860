/** Option and Result datatypes shared by the landing-page model. */
module Wrappers {

  /** A JavaScript value that may be `null` or `undefined` (None) or present (Some). */
  datatype Option<+T> = None | Some(value: T)

  /** The outcome of a render: a value, or the error that made the server component throw. */
  datatype Result<+T, +E> = Ok(value: T) | Err(error: E)
}
