/** Option and Result values standing for Python's `None` and for raised exceptions. */
module Wrappers {

  datatype Option<+T> = None | Some(value: T)

  /** The outcome of a call that may raise: its value, or the exception's text. */
  datatype Result<+T> = Ok(value: T) | Err(error: string)
}
