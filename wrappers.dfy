/** Failure-carrying results for the SDK's exceptions. */
module Wrappers {

  datatype Option<+T> = None | Some(value: T)

  /** The exceptions the SDK raises, one constructor per Python exception kind. */
  datatype Error =
    | ValueError(message: string)                // raise ValueError(...)
    | HttpError(status: int)                     // requests' raise_for_status()
    | RequestFailed(message: string, status: int) // raise Exception("Failed to ...")
    | KeyError(key: string)                      // d[key] on a missing key
    | TypeError                                  // None used as a number or a string
    | AttributeError(name: string)               // attribute missing on an object or on None

  datatype Result<+T> = Ok(value: T) | Err(error: Error)
}
