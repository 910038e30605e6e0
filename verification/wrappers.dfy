/** Optional values and results, the shapes the link's callbacks and facade use. */
module Wrappers {

  /** A value that may be absent, as JavaScript's `undefined`/`null` arguments are. */
  datatype Option<+T> = None | Some(value: T) {

    /** The value when present, `default` otherwise: the `x || y` idiom of the source. */
    function GetOr(default: T): T {
      match this
      case Some(v) => v
      case None => default
    }
  }

  /** Either a value or the error a call threw synchronously. */
  datatype Result<+R, +E> = Success(value: R) | Failure(error: E)
}
