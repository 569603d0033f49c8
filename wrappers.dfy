/** Option and Result values shared by every module of the model. */
module Wrappers {

  /** A value that may be absent: `std::optional`, a nullable pointer, an empty task. */
  datatype Option<+T> = None | Some(value: T)

  /** The outcome of an operation that either produces a value or fails with an error. */
  datatype Result<+T, +E> = Ok(value: T) | Err(error: E)
}
