/** Optional values and success/failure results shared by every module. */
module Wrappers {

  /** A value that may be absent; `None` stands for PHP's `null`. */
  datatype Option<+T> = None | Some(value: T)

  /** The outcome of a collaborator call that may throw: `Failure` carries the exception message. */
  datatype Result<+R, +E> = Success(value: R) | Failure(error: E)
}
