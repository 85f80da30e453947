/** Optional values: Python's `None` versus a present value. */
module Wrappers {

  datatype Option<T> = None | Some(value: T) {

    /** The encapsulated value, or `default` when there is none (Python's `x if x is not None else default`). */
    function GetOr(default: T): T
    {
      match this
      case Some(v) => v
      case None => default
    }
  }
}
