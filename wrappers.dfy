/** The optional value used where the source returns a nil pointer. */
module Wrappers {
  datatype Option<+T> = None | Some(value: T)
  {
    /** The value as a sequence of length at most one. */
    function ToSeq(): (s: seq<T>)
      ensures |s| <= 1 && (|s| == 1 <==> Some?) && (Some? ==> s[0] == value)
    {
      match this
      case None => []
      case Some(v) => [v]
    }
  }
}
