/** Optional values: the model's stand-in for a C# reference that may be null
    and for a nullable `int?` or a caught exception. */
module Wrappers {

  datatype Option<+T> = None | Some(value: T) {

    /** The wrapped value, or `default` when there is none. */
    function GetOr(default: T): T {
      match this
      case Some(v) => v
      case None => default
    }
  }
}
