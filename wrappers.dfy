/** Option and Result, plus the Python exceptions the scripts raise, as values. */
module Wrappers {

  datatype Option<T> = None | Some(value: T)

  datatype Result<T, E> = Ok(value: T) | Err(error: E)

  /** The exceptions the modelled code can raise. Each carries the offending text where the
      source's message does. */
  datatype PyError =
    | ValueError(detail: string)
    | KeyError(key: string)
    | IndexError
    | TypeError
    | ZeroDivisionError
    | OverflowError
    | AttributeError
}
