/** Optional values and results with an error, shared by every module. */
module Wrappers {

  /** A value that may be absent: `null` / `None` in the source. */
  datatype Option<+T> = None | Some(value: T)

  /** The value of a computation that may raise an exception instead. */
  datatype Result<+T, +E> = Ok(value: T) | Err(error: E)
}
