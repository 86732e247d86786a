/** Optional values: stands for a JavaScript value that may be `undefined`. */
module Wrappers {

  datatype Option<+T> = None | Some(value: T) {

    /** The wrapped value, or `default` when there is none. */
    function GetOr(default: T): T {
      match this
      case Some(v) => v
      case None => default
    }
  }

  /** A possibly undefined string as a template literal renders it. */
  function Show(s: Option<string>): string {
    match s
    case Some(v) => v
    case None => "undefined"
  }
}
