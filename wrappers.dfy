/** Option and Result values for the optional fields and the error paths of the ranch application. */
module Wrappers {

  /** A value that may be missing, as a nullable column or an absent dictionary key. */
  datatype Option<+T> = None | Some(value: T)

  /** The outcome of an operation that raises on bad input. */
  datatype Result<+T, +E> = Ok(value: T) | Err(error: E)
}
