/** Optional values and error returns shared by every module of the model. */
module Wrappers {
  /** Python's `Optional[T]`: `None` or a present value. */
  datatype Option<+T> = None | Some(value: T)

  /** A call that either returns a value or raises; the error carries the exception's message. */
  datatype Result<+T, +E> = Ok(value: T) | Err(error: E)
}
