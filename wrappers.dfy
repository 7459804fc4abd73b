/** Failure-carrying values shared by the whole model. */
module Wrappers {

  datatype Option<T> = None | Some(value: T)

  /** The value of a Python call that either returns or raises. */
  datatype Result<T, E> = Ok(value: T) | Err(error: E)

  /** The value of a Python call that returns nothing or raises. */
  datatype Outcome<E> = Pass | Fail(error: E)
}
