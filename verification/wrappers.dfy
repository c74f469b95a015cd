/** Optional values, standing in for the `undefined` that `Array.prototype.find`
    returns when nothing matches and for absent fields of a restored snapshot. */
module Wrappers {

  datatype Option<+T> = None | Some(value: T) {

    /** Returns the value held in Some, or `default` if None. */
    function GetOr(default: T): T {
      match this
      case Some(v) => v
      case None => default
    }
  }
}
