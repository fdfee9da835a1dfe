/** Option and Result values, used for the optional fields of the data model
    and for operations that either succeed or report an error message. */
module Wrappers {

  datatype Option<+T> = None | Some(value: T)

  datatype Result<+T, +E> = Ok(value: T) | Err(error: E)
}
