/** The optional value used where the source may or may not act. */
module Wrappers {

  datatype Option<+T> = None | Some(value: T) {

    /** The value as a sequence of length zero or one. */
    function ToSeq(): (s: seq<T>)
      ensures |s| <= 1
      ensures Some? ==> s == [value]
      ensures None? ==> s == []
    {
      match this
      case None => []
      case Some(v) => [v]
    }
  }
}
