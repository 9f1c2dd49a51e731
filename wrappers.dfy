/** Failure-carrying results for the Python exceptions the loader can raise. */
module Wrappers {

  datatype Option<+T> = None | Some(value: T)

  /** The Python exceptions that the modelled code raises on bad input. */
  datatype Error =
    | KeyError(key: string)          // `d[key]` on a mapping without `key`
    | AttributeError(name: string)   // a method called on a value that does not have it

  datatype Result<+T> = Ok(value: T) | Err(error: Error)
}
