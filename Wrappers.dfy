/** Option and Result, shared by every module: a value that may be
    absent (JavaScript `null`) and the outcome of an operation that may throw. */
module Wrappers {

  datatype Option<+T> = None | Some(value: T)

  datatype Result<+R, +E> = Ok(value: R) | Err(error: E)
}
