/** Option and Result, standing in for Java's Optional and for exceptions
    that a caller catches. */
module Wrappers {
  datatype Option<T> = None | Some(value: T)

  datatype Result<T, E> = Ok(value: T) | Err(error: E)
}
