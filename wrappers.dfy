/** Optional values (Python's `None`) and outcomes that may carry an exception message. */
module Wrappers {

  datatype Option<+T> = None | Some(value: T)

  /** `Failure` stands for an exception raised by the code it models; the string is its message. */
  datatype Result<+R> = Success(value: R) | Failure(error: string)
}
