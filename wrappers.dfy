/** Optional values and results with an error, for parsed form fields and
    for the estimator's refusals. */
module Wrappers {

  datatype Option<+T> = None | Some(value: T)

  datatype Result<+T, +E> = Ok(value: T) | Err(error: E)
}
