/** Failure-carrying results for the operations whose source raises an exception. */
module Wrappers {

  datatype Option<+T> = None | Some(value: T)

  /** Either a value or the exception the source would raise instead. */
  datatype Result<+T> = Ok(value: T) | Err(error: Error)

  /** Either nothing happened wrong, or the exception the source would raise. */
  datatype Outcome = Pass | Fail(error: Error)

  /** The Python exception classes the modelled code raises, with their message. */
  datatype Error =
    | ValueError(msg: string)
    | RuntimeError(msg: string)
    | IndexError(msg: string)
    | KeyError(msg: string)
    | ZeroDivisionError(msg: string)
}
