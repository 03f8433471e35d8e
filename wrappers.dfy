/** Optional values and results shared by the registry modules. */
module Wrappers {

  /** An optional value: the registry's "not yet populated" cache slot. */
  datatype Option<+T> = None | Some(value: T)

  /** The outcome of an operation that either yields a value or fails with an error. */
  datatype Result<+T, +E> = Success(value: T) | Failure(error: E)
}
