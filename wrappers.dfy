/** Failure-carrying results shared by the model's modules. */
module Wrappers {

  datatype Option<+T> = None | Some(value: T)

  /** The outcome of an operation that the source may abort with an exception. */
  datatype Result<+T, +E> = Ok(value: T) | Err(error: E)
}
