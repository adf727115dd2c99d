/** Optional values and results shared by the model: an optional value and a result
    that is either a value or an error. */
module Wrappers {

  /** A value that may be absent (a nil pointer or an omitted field). */
  datatype Option<+T> = None | Some(value: T)

  /** The value of a call that returns either a value or an error. */
  datatype Result<+T, +E> = Ok(value: T) | Err(error: E)
}
