/** Optional values, and the exceptions the source raises, as values. */
module Outcomes {
  datatype Option<T> = None | Some(value: T)

  datatype Result<T> = Ok(value: T) | Err(error: PyError)

  /** The Python exceptions the model reaches: a rejected argument, and a
      division by zero. */
  datatype PyError = ValueError(message: string) | ZeroDivisionError(message: string)
}
