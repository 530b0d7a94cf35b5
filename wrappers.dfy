/** Optional values (a Java reference that may be null) and results that may carry
    the exception a Java call would have thrown. */
module Wrappers {

  datatype Option<+T> = None | Some(value: T)

  datatype Result<+T, +E> = Ok(value: T) | Err(error: E)
}
