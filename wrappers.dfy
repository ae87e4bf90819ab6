/** Option and Result, the failure-carrying values used by every module.
    Go's `(value, error)` pairs become a `Result`, and a nil pointer or a
    nil error becomes `None`. */
module Wrappers {

  datatype Option<+T> = None | Some(value: T) {
    function GetOr(default: T): T {
      match this
      case Some(v) => v
      case None => default
    }
  }

  /** An error is carried as the text Go's `err.Error()` would print. */
  datatype Result<+T> = Ok(value: T) | Err(error: string) {
    function ErrorOption(): Option<string> {
      if Err? then Some(error) else None
    }
  }
}
