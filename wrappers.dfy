/** Optional values and the exceptions the modelled Python code can raise. */
module Wrappers {
  datatype Option<T> = None | Some(value: T)

  /** The Python exceptions that the modelled operations raise, by kind. */
  datatype Raised =
    | ZeroDivisionError
    | KeyError(key: string)
    | TypeError
    | AttributeError
    | Rejected(reason: string)   // an exception with this message, from a validation or a library call

  datatype Result<T> = Ok(value: T) | Err(error: Raised)

  /** What `load_state_dict` raises when the keys of the dictionary and the model differ. */
  const LoadError := "Error(s) in loading state_dict"
}
