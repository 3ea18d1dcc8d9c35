/** Value-level stand-ins for the exceptions the registration engine throws and catches. */
module Exceptions {

  datatype Option<+T> = None | Some(value: T)

  /** A computation that either yields a value or raises an error. */
  datatype Result<+T, +E> = Ok(value: T) | Err(error: E)

  /** A statement that either completes normally or raises an error. */
  datatype Outcome<+E> = Pass | Throw(error: E)
}
