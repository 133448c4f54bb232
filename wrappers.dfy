/** Option and Result, the stand-ins for JavaScript's `null` and for a thrown or fatal error. */
module Wrappers {

  datatype Option<+T> = None | Some(value: T)

  datatype Result<+T, +E> = Ok(value: T) | Err(error: E)
}
