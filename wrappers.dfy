/** Option, Result and the error values shared by the whole model. */
module Wrappers {

  /** A value that may be absent: a Go nil pointer, a nil map, an unset filter. */
  datatype Option<+T> = None | Some(value: T) {
    function GetOr(default: T): T {
      match this
      case Some(v) => v
      case None => default
    }
  }

  /** A Go `(value, error)` pair where the value is meaningless on error. */
  datatype Result<+T, +E> = Ok(value: T) | Err(error: E)

  /** The errors the core produces or passes on. Errors of collaborators
      (the compute provider, the file system, the cluster hooks, the
      configuration decoder) are carried as opaque messages. */
  datatype Error =
    | NotABoolean                     // "text is not a boolean"
    | FileError(path: string, reason: string)
    | ConfigError(reason: string)
    | ProviderError(reason: string)
    | HookError(reason: string)
    | NegativeCount(n: int)           // "n cannot be smaller than 0"
    | MissingHostname                 // attribute unique.hostname missing or empty
    | HostnameNotFound(name: string)  // no listed server carries that hostname
}
