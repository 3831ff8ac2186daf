/** Optional values and results, standing for JavaScript's `undefined` and for a
    promise that resolves or rejects. */
module Wrappers {

  /** A value that may be absent (`undefined` in the source). */
  datatype Option<+T> = None | Some(value: T)

  /** The settled state of a promise: resolved with a value or rejected with a cause. */
  datatype Result<+T, +E> = Ok(value: T) | Err(error: E)
}
