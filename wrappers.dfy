/** Optional values: an absent JavaScript property or a `false` answer is `None`. */
module Wrappers {

  datatype Option<T> = None | Some(value: T) {

    /** The value held, or `default` when absent (JavaScript's `x || default`). */
    function GetOr(default: T): T
    {
      match this
      case Some(v) => v
      case None => default
    }
  }
}
