/** Optional values and results with an error text, as the application's
    `None` returns and raised exceptions are modelled. */
module Wrappers {

  datatype Option<+T> = None | Some(value: T)

  /** `Err` carries the text `str(e)` of the exception the Python code raises. */
  datatype Result<+T> = Ok(value: T) | Err(error: string)

  /** A step that returns nothing, or raises an exception with this text. */
  datatype Outcome = Pass | Fail(error: string)
}
