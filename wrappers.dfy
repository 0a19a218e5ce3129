/** Optional values and results, as used throughout the model. */
module Wrappers {
  /** A value that may be absent: JavaScript's `undefined` or `null` is `None`. */
  datatype Option<T> = None | Some(value: T)

  /** The outcome of an operation that can throw. */
  datatype Result<T, E> = Ok(value: T) | Err(error: E)
}
