/** Optional values, and results that may be an exception instead. */
module Wrappers {

  datatype Option<T> = None | Some(value: T)

  datatype Error = StatementFailed | ValueError | OverflowError | ValidationError

  datatype Result<T> = Ok(value: T) | Err(error: Error)
}
