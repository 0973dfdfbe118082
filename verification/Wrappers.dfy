/** The optional value and the result type shared by every module. */
module Wrappers {

  datatype Option<+T> = None | Some(value: T)

  /** A returned value, or the code the program raises with. */
  datatype Result<+T, +E> = Ok(value: T) | Err(error: E)
}
