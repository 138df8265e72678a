/** Failure-carrying values shared by every module: `Option` stands for a
    JavaScript value that may be `null` or `undefined`, `Result` for a call
    that either returns or throws, `Outcome` for one that returns nothing. */
module Wrappers {

  datatype Option<+T> = None | Some(value: T) {
    function GetOr(default: T): T {
      match this
      case Some(v) => v
      case None => default
    }
  }

  datatype Result<+R, +E> = Success(value: R) | Failure(error: E)

  datatype Outcome<+E> = Pass | Fail(error: E)
}
