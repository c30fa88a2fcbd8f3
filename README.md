# adjacent-pair-iterator, modelled in Dafny

The crate turns any iterator into an iterator over overlapping adjacent pairs:
`[1, 2, 3, 4]` gives `(1, 2)`, `(2, 3)`, `(3, 4)`. The adapter `AdjacentPairs`
owns the wrapped iterator and one slot, `last_item`. The slot holds the element
to reuse as the first half of the next pair. `next` takes that slot, or else
pulls a fresh element. It then pulls one more element, carries it, and returns
the pair. `None` comes back as soon as a pull fails. `size_hint` turns the
source's bounds into bounds on the pairs still to come.

The test helpers are modelled too:

- a two-element collection and its iterator, which empties two optional slots
  front first;
- `NoStdString`, a fixed 4096-byte text buffer with bounded appends and an
  in-place filter (`removing`).

Layout:

- `wrappers.dfy` (`Wrappers`): `Option`.
- `pair_spec.dfy` (`PairSpec`): the adapter on values.
  - `State(carried, rest)` is the slot plus what the source will still yield.
  - `Step` is one call of `next`. `Outputs` is `n` successive calls.
  - `PairsOf` is the list of consecutive pairs.
  - `RemainingPairsForGivenSize` is the size computation.
  - The lemmas prove what repeated calls produce.
- `std_iter.dfy` (`StdIter`): the standard iterator over an in-memory collection.
  - It is a cursor over a fixed sequence with an exact `size_hint`.
  - The tests wrap it through `array.iter()` and `vec.into_iter()`.
- `test_iterator.dfy` (`TestIterator`): `NoStdIntoIterator` and `NoStdIterator`.
- `adjacent_pairs.dfy` (`AdjacentPairIterator`): the adapter as a class.
  - `lastItem` is a field and the source is an object.
  - `Next` is proved to follow `PairSpec.Step` on the adapter's view.
  - `SizeHint` is proved against the pairs still to come.
  - Also here: `From`, `adjacent_pairs` (`AdjacentPairsOf`) and `into_iter`.
  - A ghost counter `pulls` counts calls of the source's `next`.
- `adjacent_pairs_tests.dfy` (`AdjacentPairTests`): the crate's unit tests and
  README example as methods. Each method's postcondition includes what the test asserts.
- `test_string.dfy` (`TestString`): `NoStdString` over an `array<Byte>`, with
  `Filter`, `Count` and the UTF-8 encoding it appends.

Rust's generic `IteratorType` becomes `Source<T>`, a choice between the two
source iterators the repository uses. Cloning an item is identity on `T`.
Machine sizes (`usize`) are unbounded `nat`s.

## Model

| member | source | states |
|---|---|---|
| AdjacentPairIterator.AdjacentPairs.New | src/lib.rs:41-46 | a new adapter holds the given source and carries nothing; its view is the source's remaining elements with an empty slot |
| AdjacentPairIterator.AdjacentPairs.Next | src/lib.rs:65-74 | the result and the new state are exactly `PairSpec.Step` of the old state; the number of source calls is `SourceCalls` (one when an item is carried or the first pull fails, two otherwise) |
| AdjacentPairIterator.Pull | src/lib.rs:68-71 | a call of the source's `next` yields its first remaining element and drops it, or `None` when nothing remains |
| AdjacentPairIterator.AdjacentPairs.SizeHint | src/lib.rs:76-82 | both bounds are sound for the number of pairs still to come; they are exact over a collection; if the source's bounds coincide, so do the adapter's (the exact-size claim); the adapter has an upper bound exactly when the source has one |
| AdjacentPairIterator.AdjacentPairs.ForEachPair | tests/readme_example.rs:8-14 | a `for` loop over the adapter receives exactly the consecutive pairs of the upcoming elements, and leaves the adapter exhausted |
| AdjacentPairIterator.Source.SizeHint | src/lib.rs:77 | the wrapped source's hint bounds its remaining length from both sides, exactly for a collection |
| AdjacentPairIterator.IntoIter | src/lib.rs:117 | `into_iter` gives a fresh source that will yield the iterable's elements in order |
| AdjacentPairIterator.From | src/lib.rs:116-118 | `from` is `new(into_iter())`: a fresh adapter over the iterable's elements, carrying nothing, no source calls yet |
| AdjacentPairIterator.AdjacentPairsOf | src/lib.rs:136-138 | `adjacent_pairs` gives the same adapter as `from` |
| PairSpec.Step | src/lib.rs:65-74 | one call of `next` on the adapter's state: a returned pair's second half is what is carried afterwards; a `None` leaves the slot empty, because `take()` cleared it; a carried item is the pair's first half; the source never grows |
| PairSpec.PairWithNext | src/lib.rs:71-73 | the second pull: with an element left, the pair is `(previous, first element)`, that element is carried and dropped from the source; with none left, `None` and nothing carried |
| PairSpec.PullFrom | src/lib.rs:68-71 | one `next` of a fused source: an element exactly when one remains, and then the head, the rest staying; otherwise `None` and the source is unchanged |
| PairSpec.StepMeaning | src/lib.rs:65-74 | `next` yields a pair iff at least two elements are upcoming; the pair is the first two; the second is carried and the upcoming elements lose their first; a `None` leaves nothing carried and nothing left, so a trailing element is never offered again |
| PairSpec.StepConsumption | src/lib.rs:66-71 | a call consumes the source only at its front, one element per successful source call; at most two calls, one when an item is carried; all its source calls succeed when a pair comes back |
| PairSpec.StepTakesFirstPair | src/lib.rs:71-73 | a successful call returns the first of the pairs still to come, and the rest are still to come |
| PairSpec.AccumulateStep | src/lib.rs:65-74 | the pairs collected so far, followed by the pairs still to come, stay unchanged by a call; a call returning `None` leaves the adapter exhausted |
| PairSpec.PairsOfAt | src/lib.rs:164-193 | `xs` has `max(|xs| - 1, 0)` consecutive pairs and the i-th is `(xs[i], xs[i + 1])` |
| PairSpec.OutputsArePairs | src/lib.rs:65-74 | `n` successive calls return the upcoming pairs in order, then `None` on every later call |
| PairSpec.FreshAdapterOutputs | src/lib.rs:164-193 | over a source yielding `xs`, call i returns `(xs[i], xs[i + 1])` while `i + 1 < |xs|`, and `None` after that |
| PairSpec.ExhaustionIsPermanent | src/lib.rs:97-102 | once `next` has returned `None`, every later call returns `None` (the fused claim) |
| PairSpec.RemainingPairsForGivenSize | src/lib.rs:48-55 | `remaining_pairs_for_given_size`: with an item carried, one pair per remaining source element; without, one fewer, saturating at 0 |
| PairSpec.RemainingPairsIsPairCount | src/lib.rs:48-55 | given the source's exact size, `remaining_pairs_for_given_size` is the number of pairs still to come |
| PairSpec.RemainingPairsBounds | src/lib.rs:76-82 | a lower or upper bound on the source's size gives a lower or upper bound on the pairs still to come |
| PairSpec.StepCountsDown | src/lib.rs:205-219 | each successful call leaves exactly one pair fewer to come, and a failing one leaves none |
| StdIter.SeqIter.constructor | src/lib.rs:150-151 | a new collection iterator will yield all the collection's elements |
| StdIter.SeqIter.Next | src/lib.rs:150-151 | yields the first remaining element and drops it, or `None` at the end (fused) |
| StdIter.SeqIter.SizeHint | src/lib.rs:205-209 | the hint is the exact remaining length, as lower and as upper bound |
| TestIterator.From | src/test_helpers/iterator.rs:3-8 | the collection's two elements are the array's, in order |
| TestIterator.IntoIter | src/test_helpers/iterator.rs:10-21 | a fresh iterator with both slots filled, which will yield `first` then `second` |
| TestIterator.NoStdIterator.constructor | src/test_helpers/iterator.rs:16-19 | the slots hold the given values |
| TestIterator.NoStdIterator.Remaining | src/test_helpers/iterator.rs:23-26 | the iterator yields at most two elements |
| TestIterator.NoStdIterator.Next | src/test_helpers/iterator.rs:31-33 | returns `first` if present, else `second`; the returned slot becomes empty and the other one is unchanged; seen as a source, it pulls its first remaining element |
| TestIterator.NoStdIterator.SizeHint | src/test_helpers/iterator.rs:28-34 | the iterator keeps the default hint, `(0, None)` |
| TestIterator.IntoIterYieldsBoth | src/test_helpers/iterator.rs:3-33 | `from([a, b]).into_iter()` yields `Some(a)`, `Some(b)`, then `None` on the next two calls |
| AdjacentPairTests.ShouldProvideNothingWithoutItems | src/lib.rs:148-153 | no pair from an empty collection, after one source call |
| AdjacentPairTests.ShouldProvideNothingForOnlyOneInput | src/lib.rs:156-161 | no pair from one element, after two source calls, and nothing carried afterwards |
| AdjacentPairTests.ShouldProvidePairForTwoInputs | src/lib.rs:164-170 | `(1, 2)`, then `None` |
| AdjacentPairTests.ShouldProvideTwoPairsForThreeInputs | src/lib.rs:173-180 | `(1, 2)`, `(2, 3)`, then `None` |
| AdjacentPairTests.ShouldProvideManyPairs | src/lib.rs:183-193 | the five pairs of `[1, 2, 3, 4, 5, 6]`, then `None` |
| AdjacentPairTests.ShouldWorkWithIntoIterator | src/lib.rs:196-202 | over the two-element test collection: `(1, 2)`, then `None` |
| AdjacentPairTests.ShouldUpdateItsSizeHint | src/lib.rs:205-219 | over `[0; 5]` the hints read before each call are `(4, 4)` down to `(0, 0)`, and the last call returns `None` |
| AdjacentPairTests.HintThenNext | src/lib.rs:205-219 | with n elements upcoming over a collection, the hint is `(n - 1, n - 1)` (0 for none), the call fails iff `n < 2`, and a pair leaves `n - 1` upcoming |
| AdjacentPairTests.ShouldConvertFromIterable | src/lib.rs:245-249 | `From::from` over the test collection yields `(1, 2)` |
| AdjacentPairTests.ReadmeExample | tests/readme_example.rs:8-22 | iterating over `[1, 2, 3, 4]` gives `(1, 2)`, `(2, 3)`, `(3, 4)` |
| TestString.NoStdString.Default | src/test_helpers/string.rs:42-49 | a zero-filled 4096-byte array and an empty text; the buffer invariant holds |
| TestString.NoStdString.AsRef | src/test_helpers/string.rs:51-55 | the text is exactly the first `length` bytes of the array |
| TestString.NoStdString.Eq | src/test_helpers/string.rs:57-61 | equal to a string iff the lengths agree and the bytes agree one by one |
| TestString.StrEq | src/test_helpers/string.rs:63-67 | with the string on the left, equal iff the string is the buffer's text: the comparison is symmetric |
| TestString.NoStdString.Removing | src/test_helpers/string.rs:16-33 | the new text is the old text with every occurrence of the byte filtered out, in order; the length drops by the number of occurrences; no occurrence remains; the array past the new length is untouched; the buffer invariant is kept |
| TestString.NoStdString.WriteStr | src/test_helpers/string.rs:70-79 | fails iff the result would exceed 4096 bytes, and then changes nothing; otherwise the text becomes the old text followed by the string, and the array past the new length is untouched |
| TestString.NoStdString.WriteChar | src/test_helpers/string.rs:81-90 | the same capacity rule with `len_utf8(c)` bytes; on success the text is extended by the character's UTF-8 form |
| TestString.NoStdString.CopyInto | src/test_helpers/string.rs:76 | `copy_from_slice` writes `s` at `bytes[length..length + |s|]` and leaves every other byte as it was |
| TestString.FilterLength | src/test_helpers/string.rs:16-33 | filtering shortens the text by exactly the number of occurrences |
| TestString.FilterExcludes | src/test_helpers/string.rs:19-28 | no byte equal to the pattern survives filtering |
| TestString.FilterKeepsOthers | src/test_helpers/string.rs:19-28 | every other byte value occurs as often as before |
| TestString.FilterWithoutPattern | src/test_helpers/string.rs:19-28 | a text without the pattern is left unchanged |
| TestString.FilterIdempotent | src/test_helpers/string.rs:16-33 | removing the same byte a second time changes nothing |
| TestString.FilterExtend | src/test_helpers/string.rs:19-28 | one round of the loop: the filtered prefix grows by the next byte unless it is the pattern |
| TestString.LenUtf8 | src/test_helpers/string.rs:82 | a character takes one to four bytes |
| TestString.EncodeUtf8 | src/test_helpers/string.rs:87 | the encoding is `len_utf8(c)` bytes long |
| TestString.EncodeUtf8RoundTrip | src/test_helpers/string.rs:87 | the encoding's lead byte announces its length, the other bytes are continuation bytes, and decoding gives back the code point |

## Left out

- The `Debug` implementations of the adapter and the buffer (src/lib.rs:85-95, src/test_helpers/string.rs:36-40) and the debug-print test (src/lib.rs:222-242) are not modelled. They render text through the core formatting machinery.
- `NoStdString::format` and `write_fmt` (src/test_helpers/string.rs:10-14) are not modelled. They drive `core::fmt::Arguments`, which is not part of this model. `WriteStr` and `WriteChar` are the buffer's side of that machinery.
- The README example also writes each pair through a formatter (tests/readme_example.rs:10) and compares the rendered text (tests/readme_example.rs:17-22). `ReadmeExample` states which pairs the loop receives, not the rendered text.
- TestString.NoStdString.AsRef: the UTF-8 validation of `from_utf8` and its panic on invalid bytes (src/test_helpers/string.rs:53) are not modelled; `AsRef` returns the raw bytes in every case. The panic is reachable in the crate: `removing` accepts any byte, so removing a byte of 0x80 or above can split a multi-byte character (removing 0xA9 from the bytes C3 A9 of "é" leaves a lone C3). The repository itself only ever removes `b','`. `WriteStr` likewise accepts any bytes, not only valid UTF-8.
- Sizes are unbounded. The `usize` overflow of `size + 1` (src/lib.rs:49) and of `length + str.len()` (src/test_helpers/string.rs:71) cannot occur in the model.
- AdjacentPairIterator.Source: the generic `IteratorType` is reduced to the two sources the repository uses. Both are fused and finite. The fused claim is therefore proved for fused sources only, as the crate promises. A source that yields again after `None` is not modelled.
- Trait plumbing is not modelled as such: `#[derive(Clone)]`, the empty `FusedIterator` and `ExactSizeIterator` impls, and the blanket `AdjacentPairIterator` impl. Their claims are the lemmas and contracts above.
- Cloning an item is identity on `T`.
- The standard collection iterator (`StdIter.SeqIter`) is not part of the repository. It is modelled by what the crate relies on: it yields the elements in order and reports an exact size.
- Rust's `removing` consumes and returns the buffer. `Removing` updates the buffer in place instead, which has the same effect for the single owner.
