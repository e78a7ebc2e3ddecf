/** Optional values and results, used where the TypeScript source has `T | null`,
    an optional field `x?: T`, or an observable that ends in a value or an error. */
module Wrappers {

  datatype Option<+T> = None | Some(value: T) {
    function GetOr(default: T): T {
      match this
      case Some(v) => v
      case None => default
    }
  }

  datatype Result<+R, +E> = Success(value: R) | Failure(error: E)
}
