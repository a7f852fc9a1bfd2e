/** Failure-carrying values shared by the other modules. */
module Util {

  datatype Option<T> = None | Some(value: T)

  /** Go's `(T, error)` pair: either a value or an error message. */
  datatype Result<T> = Ok(value: T) | Err(error: string)
}
