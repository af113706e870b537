/** Optional values and results with an explicit failure case. */
module Wrappers {

  /** A value that may be absent; `None` plays the part of Ruby's `nil`. */
  datatype Option<T> = None | Some(value: T)

  /** The outcome of an operation that can be rejected before it does anything. */
  datatype Result<R, E> = Success(value: R) | Failure(error: E)
}
