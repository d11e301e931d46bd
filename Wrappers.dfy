/** Option, the model's stand-in for Kotlin's nullable values. */
module Wrappers {

  datatype Option<+T> = None | Some(value: T) {

    /** Kotlin's elvis operator `x ?: default` */
    function GetOr(default: T): T
    {
      match this
      case Some(v) => v
      case None => default
    }

    /** The value as a sequence of at most one element */
    function ToSeq(): seq<T>
    {
      match this
      case Some(v) => [v]
      case None => []
    }
  }
}
