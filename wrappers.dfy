/** Optional values and success-or-error results, used for JavaScript's
    `undefined` arguments and for the client's rejected promises. */
module Wrappers {

  datatype Option<+T> = None | Some(value: T)

  datatype Result<+R, +E> = Success(value: R) | Failure(error: E)
}
