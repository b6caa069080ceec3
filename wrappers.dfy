/** Optional values and failures shared by every module of the model. */
module Wrappers {
  /** A Kotlin nullable value: `None` is `null`. */
  datatype Option<T> = None | Some(value: T)

  /** The outcome of a call that may throw: `Failure` carries the exception's description. */
  datatype Result<T> = Success(value: T) | Failure(error: string)
}
