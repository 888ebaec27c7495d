/** Optional values and results with an error message, as used throughout the model. */
module Wrappers {

  /** A value that may be absent: the source's `undefined` / `null`. */
  datatype Option<+T> = None | Some(value: T)

  /** The outcome of an operation that can throw: a value, or the thrown error's message. */
  datatype Result<+R> = Success(value: R) | Failure(error: string)
}
