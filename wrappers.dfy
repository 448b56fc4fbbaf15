/** Option and Result, used for Python's `None` and for raised exceptions. */
module Wrappers {

  datatype Option<+T> = None | Some(value: T)

  /** `Err` carries the exception's message, as `str(e)` would render it. */
  datatype Result<+T> = Ok(value: T) | Err(message: string)
}
