/** Option and Result used by the dose engine. */
module Wrappers {

  /** A value that may be absent: an empty form field is `None`. */
  datatype Option<+T> = None | Some(value: T)

  /** The outcome of one evaluation of the engine: a value or an error. */
  datatype Result<+T, +E> = Ok(value: T) | Err(error: E)
}
