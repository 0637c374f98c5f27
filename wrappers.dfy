/** Optional values and results, used for the source's `undefined` and its thrown errors. */
module Wrappers {

  datatype Option<T> = None | Some(value: T)

  datatype Result<T, E> = Success(value: T) | Failure(error: E)

  /** A computation that either completes or throws `error`. */
  datatype Outcome<E> = Pass | Fail(error: E)
}
