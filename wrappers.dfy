/** Option and Result values shared by the income and tax modules. */
module Wrappers {

  /** A value that may be missing (Python's implicit `None`). */
  datatype Option<+T> = None | Some(value: T)

  /** The one error the income model raises. */
  datatype Error = InvalidAmount

  /** Either a constructed value or the error its constructor raised. */
  datatype Result<+T> = Ok(value: T) | Err(error: Error)
}
