/** Optional values (TypeScript's `T | undefined`) and fallible outcomes. */
module Wrappers {

  /** `None` stands for `undefined`: a query with no data, an absent filter. */
  datatype Option<+T> = None | Some(value: T)

  /** The settled outcome of an asynchronous call: resolved or rejected. */
  datatype Result<+T, +E> = Success(value: T) | Failure(error: E)
}
