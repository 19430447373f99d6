/** Option and Result, the wrappers used throughout the model.
    A Python exception raised by the client is an `Err` carrying the exception. */
module Wrappers {

  datatype Option<+T> = None | Some(value: T) {

    function UnwrapOr(default: T): T {
      if Some? then value else default
    }
  }

  datatype Result<+T, +E> = Ok(value: T) | Err(error: E)
}
