/** Failure-compatible result types shared by the catalog and the cart. */
module Wrappers {

  /** A value that may be absent, as the result of a lookup that can miss. */
  datatype Option<+T> = None | Some(value: T)

  /** Either a successful value or an error describing why there is none. */
  datatype Result<+T, +E> = Ok(value: T) | Err(error: E)
}
