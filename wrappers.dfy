/** Optional values and error-or-value results, standing in for TypeScript's
    `undefined`/`null` fields and for the early-return guard checks of the screens. */
module Wrappers {

  datatype Option<+T> = None | Some(value: T) {
    function GetOr(default: T): T {
      match this
      case Some(v) => v
      case None => default
    }
  }

  datatype Result<+R, +E> = Success(value: R) | Failure(error: E)
}
