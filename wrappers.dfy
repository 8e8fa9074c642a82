/** Optional values and results, used wherever the source has `null`/`undefined` or a thrown error. */
module Wrappers {

  datatype Option<+T> = None | Some(value: T)

  datatype Result<+T, +E> = Ok(value: T) | Err(error: E)
}
