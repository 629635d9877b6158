/** Optional values. In this model `None` plays two roles taken from the
    scripts' JavaScript: a storage slot that is missing or holds unparsable
    JSON, and a property that is `undefined` (or a reference that is `null`). */
module Wrappers {

  datatype Option<+T> = None | Some(value: T) {

    /** The value, or `default` for None (JavaScript's `x || default`). */
    function GetOr(default: T): T
    {
      match this
      case Some(v) => v
      case None => default
    }
  }
}
