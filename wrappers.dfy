/** Option and Result, the two shapes every fallible operation of the model returns. */
module Wrappers {

  datatype Option<+T> = None | Some(value: T)

  /** A Python call either returns a value or raises; `Err` carries what it raises. */
  datatype Result<+T, +E> = Ok(value: T) | Err(error: E)
}
