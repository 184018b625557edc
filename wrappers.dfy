/** Option and Result values shared by the other modules. */
module Wrappers {

  datatype Option<+T> = None | Some(value: T)

  /** A settled step: a value, or a rejection carrying an error's message. */
  datatype Result<+T> = Ok(value: T) | Err(message: string)
}
