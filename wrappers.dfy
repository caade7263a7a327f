/** Optional values and the success-or-error outcome of a resolver. */
module Wrappers {

  /** A value that may be absent (Python's `None`). */
  datatype Option<+T> = None | Some(value: T)

  /** What a resolver hands back: a value, or the message of the exception it raised. */
  datatype Result<+T> = Ok(value: T) | Err(msg: string)
}
