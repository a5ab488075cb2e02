/** The Some/None datatype used for JavaScript's `null`/`undefined` and for
    lookups that may fail. */
module Opt {

  datatype Option<+T> = None | Some(value: T) {

    /** The value, or `default` when there is none (JavaScript's `??`). */
    function GetOr(default: T): T {
      match this
      case Some(v) => v
      case None => default
    }
  }
}
