/**
  The repository's own scenarios for the adapter, each as a method whose
  postcondition is what the scenario asserts.
*/
module AdjacentPairTests {
  import opened Wrappers
  import opened PairSpec
  import opened AdjacentPairIterator
  import TestIterator

  /** `[]`: no pair at all, after one call of the source. */
  method ShouldProvideNothingWithoutItems() returns (r: Option<(int, int)>, ghost calls: nat)
    ensures r == None && calls == 1
  {
    var adapter := AdjacentPairsOf(Collection([]));
    r := adapter.Next();
    calls := adapter.pulls;
  }

  /** `[1]`: no pair, after two calls of the source, and the lone element is not carried. */
  method ShouldProvideNothingForOnlyOneInput() returns (r: Option<(int, int)>, carried: Option<int>, ghost calls: nat)
    ensures r == None && carried == None && calls == 2
  {
    var adapter := AdjacentPairsOf(Collection([1]));
    r := adapter.Next();
    carried := adapter.lastItem;
    calls := adapter.pulls;
  }

  /** `[1, 2]`: one pair, then exhaustion. */
  method ShouldProvidePairForTwoInputs() returns (r1: Option<(int, int)>, r2: Option<(int, int)>)
    ensures r1 == Some((1, 2)) && r2 == None
  {
    var adapter := AdjacentPairsOf(Collection([1, 2]));
    r1 := adapter.Next();
    r2 := adapter.Next();
  }

  /** `[1, 2, 3]`: two pairs, then exhaustion. */
  method ShouldProvideTwoPairsForThreeInputs() returns (r: seq<Option<(int, int)>>)
    ensures r == [Some((1, 2)), Some((2, 3)), None]
  {
    var adapter := AdjacentPairsOf(Collection([1, 2, 3]));
    var a := adapter.Next();
    var b := adapter.Next();
    var c := adapter.Next();
    r := [a, b, c];
  }

  /** `[1, 2, 3, 4, 5, 6]`: five pairs, then exhaustion. */
  method ShouldProvideManyPairs() returns (r: seq<Option<(int, int)>>)
    ensures r == [Some((1, 2)), Some((2, 3)), Some((3, 4)), Some((4, 5)), Some((5, 6)), None]
  {
    var adapter := AdjacentPairsOf(Collection([1, 2, 3, 4, 5, 6]));
    var a := adapter.Next();
    var b := adapter.Next();
    var c := adapter.Next();
    var d := adapter.Next();
    var e := adapter.Next();
    var f := adapter.Next();
    r := [a, b, c, d, e, f];
  }

  /** The two-slot test collection: `(1, 2)`, then exhaustion. */
  method ShouldWorkWithIntoIterator() returns (r1: Option<(int, int)>, r2: Option<(int, int)>)
    ensures r1 == Some((1, 2)) && r2 == None
  {
    var adapter := AdjacentPairsOf(TwoElements(TestIterator.From([1, 2])));
    r1 := adapter.Next();
    r2 := adapter.Next();
  }

  /** `From::from` on the two-slot test collection. */
  method ShouldConvertFromIterable() returns (r: Option<(int, int)>)
    ensures r == Some((1, 2))
  {
    var adapter := From(TwoElements(TestIterator.From([1, 2])));
    r := adapter.Next();
  }

  /** `[0; 5]`: the hints before each call count down (4, 4) .. (0, 0), and the last call fails. */
  method ShouldUpdateItsSizeHint() returns (hints: seq<(nat, Option<nat>)>, last: Option<(int, int)>)
    ensures hints == [(4, Some(4)), (3, Some(3)), (2, Some(2)), (1, Some(1)), (0, Some(0))]
    ensures last == None
  {
    var adapter := AdjacentPairsOf(Collection([0, 0, 0, 0, 0]));
    var h0, h1, h2, h3, h4;
    h0, last := HintThenNext(adapter);
    h1, last := HintThenNext(adapter);
    h2, last := HintThenNext(adapter);
    h3, last := HintThenNext(adapter);
    h4, last := HintThenNext(adapter);
    hints := [h0, h1, h2, h3, h4];
  }

  /**
    Reads the hint of an adapter over a collection, then calls `next`: with
    n elements upcoming, both bounds are n - 1 (0 when n is 0), the call
    fails exactly when n < 2, and n - 1 elements are upcoming after a pair.
  */
  method HintThenNext<T>(adapter: AdjacentPairs<T>) returns (hint: (nat, Option<nat>), r: Option<(T, T)>)
    requires adapter.Valid() && adapter.iter.Slice?
    modifies adapter, adapter.iter.Obj()
    ensures adapter.Valid()
    ensures var n := |old(adapter.View()).Upcoming()|;
      && hint.0 == (if n == 0 then 0 else n - 1) && hint.1 == Some(if n == 0 then 0 else n - 1)
      && (r.None? <==> n < 2)
      && |adapter.View().Upcoming()| == if n < 2 then 0 else n - 1
  {
    hint := adapter.SizeHint();
    PairsOfAt(adapter.View().Upcoming());
    ghost var before := adapter.View();
    r := adapter.Next();
    StepMeaning(before);
  }

  /** The README's example: iterating over `[1, 2, 3, 4]` gives three pairs. */
  method ReadmeExample() returns (pairs: seq<(int, int)>)
    ensures pairs == [(1, 2), (2, 3), (3, 4)]
  {
    var adapter := AdjacentPairsOf(Collection([1, 2, 3, 4]));
    assert adapter.View().Upcoming() == [1, 2, 3, 4];
    assert PairsOf([3, 4]) == [(3, 4)] + PairsOf([4]);
    assert PairsOf([2, 3, 4]) == [(2, 3)] + PairsOf([3, 4]);
    assert PairsOf([1, 2, 3, 4]) == [(1, 2)] + PairsOf([2, 3, 4]);
    pairs := adapter.ForEachPair();
  }
}
