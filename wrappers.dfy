/** Option and Result values used for the source's `None` returns and raised errors. */
module Wrappers {

  datatype Option<T> = None | Some(value: T)

  /** A computation that either produced a value or raised with a message. */
  datatype Result<T> = Ok(value: T) | Err(error: string)
}
