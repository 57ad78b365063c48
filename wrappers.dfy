/** Option and Result, the failure-carrying values used across the model. */
module Wrappers {

  datatype Option<+T> = None | Some(value: T) {
    function GetOr(default: T): T {
      match this
      case Some(v) => v
      case None => default
    }
  }

  /** The Python exceptions the modelled code raises or catches. */
  datatype Error =
    | KeyError(key: string)
    | ValueError(message: string)
    | TypeError(message: string)
    | UnboundLocal(name: string)   // UnboundLocalError: a local read before assignment
    | AttributeError(name: string) // an attribute looked up on None
    | Shown(message: string)       // an error message shown to the user; nothing is raised

  datatype Result<+R> = Success(value: R) | Failure(error: Error)
}
