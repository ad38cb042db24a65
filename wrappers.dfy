/** The optional-value and error-or-value types shared by the other modules. */
module Wrappers {

  datatype Option<T> = None | Some(value: T)

  /** A value or the error message a Go function returned beside nil. */
  datatype Result<T> = Ok(value: T) | Err(msg: string)
}
