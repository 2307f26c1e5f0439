/** Optional values and results with an error message, standing in for the
    `undefined`/`null` returns and the thrown `Error`s of the TypeScript code. */
module Wrappers {

  datatype Option<+T> = None | Some(value: T) {
    function GetOr(default: T): T {
      match this
      case Some(v) => v
      case None => default
    }
  }

  datatype Result<+T> = Ok(value: T) | Err(message: string)
}
