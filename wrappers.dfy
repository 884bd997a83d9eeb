/** Option and Result values standing in for Python's `None` returns and raised `ValueError`s. */
module Wrappers {

  datatype Option<+T> = None | Some(value: T)

  /** The only exception the modelled code raises. */
  datatype Error = ValueError

  datatype Result<+R> = Success(value: R) | Failure(error: Error)
}
