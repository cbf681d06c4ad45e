/** Optional values and the two ways an operation can end: with a value or with an error. */
module Wrappers {

  /** A value that may be absent (`undefined` or `null` in the system). */
  datatype Option<+T> = None | Some(value: T)

  /** The outcome of an operation that yields a value or throws an error. */
  datatype Result<+R, +E> = Success(value: R) | Failure(error: E)

  /** The outcome of an operation that yields nothing (`Promise<void>`) or throws an error. */
  datatype Outcome<+E> = Pass | Fail(error: E)
}
