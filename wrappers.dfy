/** Option and Result, for the "no patch" answer of a query and the failed construction of a surface. */
module Wrappers {

  datatype Option<+T> = None | Some(value: T)

  datatype Result<+T, +E> = Ok(value: T) | Err(error: E)
}
