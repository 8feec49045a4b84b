/** Optional values and the success-or-error outcome of an operation that may throw. */
module Wrappers {

  /** A value that may be absent: JavaScript's `null` / `undefined`. */
  datatype Option<+T> = None | Some(value: T)

  /** What a call that may throw produces: its value, or the message of the thrown `Error`. */
  datatype Result<+T> = Success(value: T) | Failure(error: string)
}
