/** Optional values and results of operations that may raise. */
module Wrappers {

  /** A value that may be missing: a null cell, an absent dictionary key. */
  datatype Option<+T> = None | Some(value: T)

  /** The outcome of an operation that either returns a value or raises an exception with a message. */
  datatype Result<+T> = Ok(value: T) | Err(error: string)
}
