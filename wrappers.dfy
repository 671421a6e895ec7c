/** Optional values and results shared by every module of the model. */
module Wrappers {

  /** A value that may be absent (JavaScript `undefined`, a missing header, NaN, no match). */
  datatype Option<+T> = None | Some(value: T)

  /** The outcome of an operation that the source either returns from or throws out of. */
  datatype Result<+T, +E> = Ok(value: T) | Err(error: E)
}
