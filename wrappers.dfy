/** Option and Result, used wherever the source returns nothing or raises. */
module Wrappers {

  datatype Option<+T> = None | Some(value: T)

  /** A value, or the text of the exception the source would raise. */
  datatype Result<+T, +E> = Ok(value: T) | Err(error: E)
}
