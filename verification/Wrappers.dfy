/** Optional values, results that carry an error, and names, used by every other module. */
module Wrappers {

  datatype Option<+T> = None | Some(value: T) {

    function GetOr(default: T): T {
      match this
      case None => default
      case Some(v) => v
    }
  }

  datatype Result<+T, +E> = Ok(value: T) | Err(error: E)

  /** Names of objects, compared as a whole. */
  datatype Name = Name(text: string)
}
