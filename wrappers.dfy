/** Option and Result, used throughout the model. */
module Wrappers {

  datatype Option<+T> = None | Some(value: T) {
    /** The value, or `default` when there is none. */
    function GetOr(default: T): T {
      match this
      case Some(v) => v
      case None => default
    }
  }

  /** A computation that either yields a value or fails with the text of the error it raised. */
  datatype Result<+T> = Success(value: T) | Failure(error: string)
}
