/** Optional and failure-carrying values. */
module Wrappers {

  /** A value that may be absent; `None` plays the part of a nil slice. */
  datatype Option<+T> = None | Some(value: T)

  /** The outcome of a step that can fail with an error value. */
  datatype Result<+T, +E> = Ok(value: T) | Err(error: E)
}
