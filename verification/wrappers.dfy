/** Optional values and results with an error, as the relay uses them. */
module Wrappers {

  /** A value that may be missing (a JSON null or an absent dictionary key). */
  datatype Option<+T> = None | Some(value: T)

  /** The outcome of an operation that can raise: a value, or the error it raised. */
  datatype Result<+T, +E> = Ok(value: T) | Err(error: E)
}
