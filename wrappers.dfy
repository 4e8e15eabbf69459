/** Optional values and results with an error, as the tracker's functions return them. */
module Wrappers {

  /** A value that may be absent: Python's `None` against a present value. */
  datatype Option<+T> = None | Some(value: T)

  /** A value or the reason it could not be produced (the message of a raised exception). */
  datatype Result<+T, +E> = Ok(value: T) | Err(error: E)
}
