/** Optional values and success/failure outcomes shared by the other modules. */
module Wrappers {

  /** A value that may be absent: JavaScript's `null` / `undefined`. */
  datatype Option<+T> = None | Some(value: T) {
    function GetOr(default: T): T {
      match this
      case Some(v) => v
      case None => default
    }
  }

  /** The outcome of an asynchronous call that either resolves or rejects with a message. */
  datatype Result<+R> = Ok(value: R) | Err(message: string)
}
