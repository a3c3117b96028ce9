/** Optional values: an absent JavaScript property (`undefined`), a `null`
    React state, or the NaN that `parseInt` answers when it finds no digits. */
module Wrappers {

  datatype Option<+T> = None | Some(value: T) {

    /** The value, or `default` when there is none (the `x || 0` idiom). */
    function GetOr(default: T): T {
      match this
      case Some(v) => v
      case None => default
    }
  }
}
