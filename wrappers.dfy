/** Option and Result values shared by the openSAM model. */
module Wrappers {
  datatype Option<T> = None | Some(value: T)

  /** The outcome of an operation that either yields a value or fails with a message. */
  datatype Result<T> = Ok(value: T) | Err(msg: string)
}
