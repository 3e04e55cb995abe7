/** Optional values and results, for the places where the pipeline returns
    `None` or raises. */
module Wrappers {
  datatype Option<T> = None | Some(value: T)

  /** A value, or the exception that ended the computation. */
  datatype Result<T> = Ok(value: T) | Err(error: string)
}
