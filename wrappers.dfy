/** Optional values and results with an error, used wherever the source has an
    optional field (`field?: T`, `undefined`) or can throw. */
module Wrappers {

  datatype Option<+T> = None | Some(value: T)

  datatype Result<+R, +E> = Success(value: R) | Failure(error: E)
}
