/** Optional values, the model's stand-in for JavaScript's `undefined` and `null`, and menu anchors. */
module Wrappers {

  datatype Option<+T> = None | Some(value: T) {

    /** The value, or `default` when there is none. */
    function GetOr(default: T): T {
      match this
      case Some(v) => v
      case None => default
    }
  }

  /** An element a menu is anchored to, identified by a number; no anchor is `None`. */
  type Anchor = nat
}
