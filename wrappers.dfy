/** Failure-carrying return types shared by the model's modules. */
module Wrappers {

  datatype Option<T> = None | Some(value: T)

  /** What a Python function that either returns a value or raises produces. */
  datatype Result<T, E> = Ok(value: T) | Err(error: E)

  /** What a Python procedure that either returns normally or raises produces. */
  datatype Outcome<E> = Pass | Fail(error: E)
}
