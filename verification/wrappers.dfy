/** A value that may be absent: the model's stand-in for a JavaScript property
    that is `undefined` (or otherwise falsy) on the configuration object. */
module Wrappers {

  datatype Option<+T> = None | Some(value: T) {

    /** Returns the value held in Some, or `default` if None. */
    function GetOr(default: T): T {
      match this
      case Some(v) => v
      case None => default
    }
  }
}
