/** The optional and result wrappers shared by the modules of this project. */
module Wrappers {

  /** An optional value: the model of a Go pointer or slice that may be nil. */
  datatype Option<+T> = None | Some(value: T)

  /** The outcome of a Go call that returns `(value, error)` and discards the value on error. */
  datatype Result<+T, +E> = Ok(value: T) | Err(error: E)
}
