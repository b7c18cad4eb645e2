/** Optional values and results, shared by the other modules. */
module Wrappers {
  /** An optional value. */
  datatype Option<T> = None | Some(value: T)

  /** The outcome of an operation that can fail: `Ok` with a value or `Err`
      with the error. */
  datatype Result<T, E> = Ok(value: T) | Err(error: E)
}
