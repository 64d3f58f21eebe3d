/** Optional values and results with an error channel, shared by every module. */
module Wrappers {

  /** A value that may be absent: a dictionary key that was never written, or a missing field. */
  datatype Option<+T> = None | Some(value: T)

  /** The outcome of a step that may fail with an error instead of producing a value. */
  datatype Result<+T, +E> = Ok(value: T) | Err(error: E)
}
