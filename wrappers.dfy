/** Results of operations that can fail the way the host code fails: by raising
    one of a few Python exceptions. */
module Wrappers {

  datatype Option<T> = None | Some(value: T)

  /** The Python exception classes the modelled host code raises. */
  datatype Exception =
    | ValueError
    | IndexError
    | OverflowError
    | AttributeError
    | ConnectionError

  datatype Result<T> = Ok(value: T) | Err(error: Exception)
}
