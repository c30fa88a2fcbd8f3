/**
  The adjacent-pair adapter: it owns a source iterator and one slot,
  `lastItem`, holding the element to reuse as the first half of the next pair.
  Element cloning is identity on `T`.
*/
module AdjacentPairIterator {
  import opened Wrappers
  import opened PairSpec
  import StdIter
  import TestIterator

  /**
    The source iterator types the adapter is used with: the standard
    iterator over a collection, and the two-slot test iterator.
  */
  datatype Source<T> = Slice(slice: StdIter.SeqIter<T>) | NoStd(pair: TestIterator.NoStdIterator<T>) {

    /** The one object the source's state lives in. */
    function Obj(): object
    {
      match this
      case Slice(it) => it
      case NoStd(it) => it
    }

    ghost predicate Valid()
      reads Obj()
    {
      Slice? ==> slice.Valid()
    }

    /** The elements the source will still yield. */
    function Remaining(): seq<T>
      reads Obj()
      requires Valid()
    {
      match this
      case Slice(it) => it.Remaining()
      case NoStd(it) => it.Remaining()
    }

    /** The source's own `size_hint`: always a sound bound, and exact for a collection. */
    function SizeHint(): (hint: (nat, Option<nat>))
      reads Obj()
      requires Valid()
      ensures hint.0 <= |Remaining()|
      ensures hint.1.Some? ==> |Remaining()| <= hint.1.value
      ensures Slice? ==> hint.0 == |Remaining()| && hint.1 == Some(|Remaining()|)
    {
      match this
      case Slice(it) => it.SizeHint()
      case NoStd(it) => it.SizeHint()
    }
  }

  /** `iter.next()` on whichever source the adapter holds. */
  method Pull<T>(source: Source<T>) returns (r: Option<T>)
    requires source.Valid()
    modifies source.Obj()
    ensures source.Valid()
    ensures (r, source.Remaining()) == PullFrom(old(source.Remaining()))
  {
    match source
    case Slice(it) => r := it.Next();
    case NoStd(it) => r := it.Next();
  }

  class AdjacentPairs<T> {
    /** Rust's field `iterator` (a reserved word here). */
    const iter: Source<T>
    var lastItem: Option<T>
    /** How many times the adapter has called the source's `next`, failed calls included. */
    ghost var pulls: nat

    ghost predicate Valid()
      reads this, iter.Obj()
    {
      iter.Valid()
    }

    /** The adapter's state as a value. */
    ghost function View(): State<T>
      reads this, iter.Obj()
      requires Valid()
    {
      State(lastItem, iter.Remaining())
    }

    /** `new`: wraps the source with nothing carried. */
    constructor New(source: Source<T>)
      requires source.Valid()
      ensures Valid() && iter == source
      ensures lastItem == None && pulls == 0
      ensures View() == State(None, source.Remaining())
    {
      iter := source;
      lastItem := None;
      pulls := 0;
    }

    /**
      `next`: the carried element (or else a fresh pull) paired with one more
      pull, which is then carried; `None` as soon as a pull fails, with
      nothing left carried.
    */
    method Next() returns (r: Option<(T, T)>)
      requires Valid()
      modifies this, iter.Obj()
      ensures Valid()
      ensures (r, View()) == Step(old(View()))
      ensures pulls == old(pulls) + SourceCalls(old(View()))
    {
      ghost var start := View();
      var previous: T;
      var taken := lastItem;
      lastItem := None;
      match taken {
        case Some(item) =>
          previous := item;
        case None =>
          var first := Pull(iter);
          pulls := pulls + 1;
          if first.None? {
            return None;
          }
          previous := first.value;
      }
      ghost var middle := iter.Remaining();
      assert Step(start) == PairWithNext(previous, middle);
      var current := Pull(iter);
      pulls := pulls + 1;
      if current.None? {
        return None;
      }
      lastItem := Some(current.value);
      r := Some((previous, current.value));
    }

    /**
      `size_hint`: the source's bounds turned into bounds on the pairs still
      to come; both are sound, and exact when the source's size is exact.
    */
    function SizeHint(): (hint: (nat, Option<nat>))
      reads this, iter.Obj()
      requires Valid()
      ensures hint.0 <= |PairsOf(View().Upcoming())|
      ensures hint.1.Some? ==> |PairsOf(View().Upcoming())| <= hint.1.value
      ensures iter.Slice? ==>
        hint.0 == |PairsOf(View().Upcoming())| && hint.1 == Some(|PairsOf(View().Upcoming())|)
      ensures iter.SizeHint().1 == Some(iter.SizeHint().0) ==> hint.1 == Some(hint.0)
      ensures hint.1.None? <==> iter.SizeHint().1.None?
    {
      var (lower, upper) := iter.SizeHint();
      RemainingPairsBounds(View(), lower, if upper.Some? then upper.value else |View().rest|);
      RemainingPairsIsPairCount(View());
      (RemainingPairsForGivenSize(lower, lastItem.Some?),
       if upper.Some? then Some(RemainingPairsForGivenSize(upper.value, lastItem.Some?)) else None)
    }

    /**
      Consumes the adapter as a `for` loop does: every pair in order, until
      `next` returns `None`.
    */
    method ForEachPair() returns (pairs: seq<(T, T)>)
      requires Valid()
      modifies this, iter.Obj()
      ensures Valid()
      ensures pairs == PairsOf(old(View()).Upcoming())
      ensures View() == Exhausted()
    {
      ghost var all := PairsOf(View().Upcoming());
      pairs := [];
      while true
        invariant Valid()
        invariant pairs + PairsOf(View().Upcoming()) == all
        decreases |View().Upcoming()|
      {
        ghost var before := View();
        var r := Next();
        AccumulateStep(pairs, before);
        if r.None? {
          break;
        }
        pairs := pairs + [r.value];
      }
    }
  }

  /** What `IntoIterator::into_iter` can be applied to. */
  datatype Iterable<T> = Collection(items: seq<T>) | TwoElements(pair: TestIterator.NoStdIntoIterator<T>) {

    /** The elements the iterable holds, in iteration order. */
    function Items(): seq<T>
    {
      match this
      case Collection(items) => items
      case TwoElements(pair) => [pair.first, pair.second]
    }
  }

  /** `into_iter`: a fresh source that will yield the iterable's elements. */
  method IntoIter<T>(iterable: Iterable<T>) returns (source: Source<T>)
    ensures fresh(source.Obj()) && source.Valid()
    ensures source.Slice? <==> iterable.Collection?
    ensures source.Remaining() == iterable.Items()
  {
    match iterable
    case Collection(items) =>
      var it := new StdIter.SeqIter(items);
      source := Slice(it);
    case TwoElements(pair) =>
      var it := TestIterator.IntoIter(pair);
      source := NoStd(it);
  }

  /** `From<Iterable>`: `new(iterable.into_iter())`. */
  method From<T>(iterable: Iterable<T>) returns (adapter: AdjacentPairs<T>)
    ensures fresh(adapter) && fresh(adapter.iter.Obj()) && adapter.Valid()
    ensures adapter.iter.Slice? <==> iterable.Collection?
    ensures adapter.lastItem == None && adapter.pulls == 0
    ensures adapter.View() == State(None, iterable.Items())
  {
    var source := IntoIter(iterable);
    adapter := new AdjacentPairs.New(source);
  }

  /** `adjacent_pairs`: `self.into()`, that is `From`. */
  method AdjacentPairsOf<T>(iterable: Iterable<T>) returns (adapter: AdjacentPairs<T>)
    ensures fresh(adapter) && fresh(adapter.iter.Obj()) && adapter.Valid()
    ensures adapter.iter.Slice? <==> iterable.Collection?
    ensures adapter.lastItem == None && adapter.pulls == 0
    ensures adapter.View() == State(None, iterable.Items())
  {
    adapter := From(iterable);
  }
}
