/** Failure-carrying datatypes shared by every module of the model. */
module Wrappers {

  /** A value that may be absent: Python's `None` or a missing dictionary key. */
  datatype Option<+T> = None | Some(value: T)

  /** The outcome of an operation that the source either completes or aborts by raising. */
  datatype Result<+T, +E> = Success(value: T) | Failure(error: E)
}
