/**
  The standard iterator over an in-memory collection (a slice's `iter()` or a
  vector's `into_iter()`): a cursor over a fixed sequence, with an exact size.
*/
module StdIter {
  import opened Wrappers
  import PairSpec

  class SeqIter<T> {
    const items: seq<T>
    var pos: nat

    ghost predicate Valid()
      reads this
    {
      pos <= |items|
    }

    constructor (items: seq<T>)
      ensures Valid() && this.items == items && Remaining() == items
    {
      this.items := items;
      pos := 0;
    }

    /** The elements still to be yielded. */
    function Remaining(): seq<T>
      reads this
      requires Valid()
    {
      items[pos..]
    }

    method Next() returns (r: Option<T>)
      requires Valid()
      modifies this
      ensures Valid()
      ensures (r, Remaining()) == PairSpec.PullFrom(old(Remaining()))
    {
      if pos == |items| {
        r := None;
      } else {
        r := Some(items[pos]);
        pos := pos + 1;
      }
    }

    /** An exact size: lower and upper bound are both the remaining count. */
    function SizeHint(): (hint: (nat, Option<nat>))
      reads this
      requires Valid()
      ensures hint.0 == |Remaining()| && hint.1.Some? && hint.1.value == |Remaining()|
    {
      (|items| - pos, Some(|items| - pos))
    }
  }
}
