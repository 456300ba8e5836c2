/** Optional values and success-or-error results, used for the source's
    `undefined`/`null` inputs and for rejected promises. */
module Wrappers {

  datatype Option<+T> = None | Some(value: T)

  datatype Result<+T, +E> = Success(value: T) | Failure(error: E)
}
