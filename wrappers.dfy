/** Optional values and the error outcomes of the Python code (its raised exceptions). */
module Wrappers {

  datatype Option<+T> = None | Some(value: T)

  /** The exception classes the modelled code raises. */
  datatype Error =
    | ValueError
    | TypeError
    | AttributeError
    | AssertionError
    | QueryError(message: string)

  datatype Result<+T> = Ok(value: T) | Err(error: Error)

  /** The unit value, returned by operations that only succeed or raise. */
  datatype Unit = Unit
}
