/** Optional values and results with an error message, shared by the modules below. */
module Wrappers {

  /** Python's `Optional[T]`: `None` or a value. */
  datatype Option<T> = None | Some(value: T)

  /** The outcome of a call that may raise: its value, or the message of the exception it raised. */
  datatype Result<T> = Success(value: T) | Failure(error: string)
}
