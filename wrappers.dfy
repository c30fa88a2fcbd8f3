/** Rust's `Option`, the result type of every `next` call in the model. */
module Wrappers {

  datatype Option<T> = None | Some(value: T) {

    /** The value held, as a sequence of length zero or one. */
    function ToSeq(): (s: seq<T>)
      ensures |s| <= 1
      ensures Some? ==> s == [value]
      ensures None? <==> s == []
    {
      if Some? then [value] else []
    }
  }
}
