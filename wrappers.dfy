/** Option and Result for nullable values and for calls that can fail. */
module Wrappers {

  datatype Option<+T> = None | Some(value: T)

  /** The outcome of a call into the payment provider or the database. */
  datatype Result<+T> = Ok(value: T) | Err(message: string)
}
