/** Optional values and success/failure results used throughout the model. */
module Wrappers {

  /** A value that may be absent; `None` plays the part of JavaScript's `null`. */
  datatype Option<+T> = None | Some(value: T)

  /** The outcome of a `try` block: the value it produced, or the message of what it threw. */
  datatype Result<+R, +E> = Success(value: R) | Failure(error: E)
}
