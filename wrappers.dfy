/** Option and Result values, used wherever the source returns None or raises. */
module Wrappers {

  datatype Option<+T> = None | Some(value: T)

  /** The Python exception classes the modelled code raises or lets escape. */
  datatype PyError =
    | IndexError
    | KeyError
    | TypeError
    | ValueError
    | AttributeError
    | UnboundLocalError

  datatype Result<+T> = Ok(value: T) | Err(error: PyError)
}
