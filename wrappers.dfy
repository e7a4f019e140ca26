/** Optional values and results with an error, used for lookups that may miss
    and for entry points that abort. */
module Wrappers {

  datatype Option<+T> = None | Some(value: T)

  datatype Result<+T, +E> = Success(value: T) | Failure(error: E)
}
