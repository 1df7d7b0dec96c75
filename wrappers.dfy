/** Option and Result, used for Python's `None` returns and raised exceptions. */
module Wrappers {

  datatype Option<+T> = None | Some(value: T)

  /** `Err` stands for an exception that the modelled Python code raises (or lets propagate). */
  datatype Result<+T, +E> = Ok(value: T) | Err(error: E)
}
