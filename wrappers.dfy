/** Option and Result, the two failure-carrying shapes used throughout the model. */
module Wrappers {

  /** Python's `Optional[T]`: `None` or a present value. */
  datatype Option<+T> = None | Some(value: T)

  /** The outcome of a call that either returns a value or raises. */
  datatype Result<+R, +E> = Ok(value: R) | Err(error: E)
}
