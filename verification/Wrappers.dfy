/** The two result shapes every other module uses. */
module Wrappers {

  datatype Option<+T> = None | Some(value: T)

  datatype Result<+T, +E> = Ok(value: T) | Err(error: E)

  /** The first of two that is there. */
  function OrElse<T>(a: Option<T>, b: Option<T>): Option<T> { if a.Some? then a else b }
}
