/** Optional values: the model's stand-in for Python's `None` and for a C
    `NULL` pointer returned by `getenv`. */
module Wrappers {

  datatype Option<+T> = None | Some(value: T) {

    /** The value in `Some`, or `default` when `None`. */
    function GetOr(default: T): T {
      match this
      case Some(v) => v
      case None => default
    }
  }
}
