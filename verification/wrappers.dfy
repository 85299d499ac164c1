/** Optional values and call outcomes shared by the proxy and the reaper models. */
module Wrappers {

  /** An optional value: Python's `None` or a present value. */
  datatype Option<+T> = None | Some(value: T) {

    /** The value when present, `default` otherwise (`d.get(k, default)`). */
    function GetOr(default: T): T {
      match this
      case Some(v) => v
      case None => default
    }
  }

  /** The outcome of a library call that may raise: a value or an error detail. */
  datatype Result<+R, +E> = Success(value: R) | Failure(error: E)
}
