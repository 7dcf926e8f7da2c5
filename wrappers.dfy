/** Optional values and results with an error, for the source's nullable
    columns, thrown errors and error responses. */
module Wrappers {

  datatype Option<+T> = None | Some(value: T)

  datatype Result<+T, +E> = Ok(value: T) | Err(error: E)
}
