/** Optional values and error results shared by the scoring modules. */
module Wrappers {

  datatype Option<+T> = None | Some(value: T)

  /** Either a value or the reason the script would have stopped. */
  datatype Result<+T, +E> = Ok(value: T) | Err(error: E)
}
