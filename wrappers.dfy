/** Option and Result, used for settings that may be absent from the
    configuration text and for operations that return a value or an error. */
module Wrappers {

  datatype Option<+T> = None | Some(value: T)

  datatype Result<+T, +E> = Ok(value: T) | Err(error: E)
}
