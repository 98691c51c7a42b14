/** Optional values and success/failure results, the way the backend's
    optional fields (nil pointers) and Go's (value, error) pairs are modelled. */
module Wrappers {

  /** A value that may be absent; `None` stands for a nil pointer. */
  datatype Option<+T> = None | Some(value: T)

  /** The outcome of a call that either yields a value or an error. */
  datatype Result<+R, +E> = Success(value: R) | Failure(error: E)
}
