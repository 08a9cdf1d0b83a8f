/** A recorded event of one trigger id, and the sorted-vector operations
    the recorder builds on. */
module LoopEvents {
  import opened Prelude
  import opened MidiTimes
  import opened OutputValues

  datatype LoopEvent = LoopEvent(value: OutputValue, pos: MidiTime, id: nat)

  function IsOn(e: LoopEvent): bool
  {
    OutputValues.IsOn(e.value)
  }

  /** A copy of the event moved to another position. */
  function WithPos(e: LoopEvent, newPos: MidiTime): (r: LoopEvent)
    ensures r.pos == newPos && r.value == e.value && r.id == e.id
  {
    LoopEvent(e.value, newPos, e.id)
  }

  /** The derived order of `MidiTime`, as an `Ordering`. */
  function PosCmp(a: MidiTime, b: MidiTime): (o: Ordering)
    ensures o == Less <==> MidiTimes.Less(a, b)
    ensures o == Equal <==> a == b
  {
    if MidiTimes.Less(a, b) then Less else if a == b then Equal else Greater
  }

  /** The key order the comparison implements: by position; at the same
      position the larger value first (so `Off` before `On`, louder `On`
      before softer), then by id. */
  predicate Before(a: LoopEvent, b: LoopEvent)
  {
    MidiTimes.Less(a.pos, b.pos)
    || (a.pos == b.pos && ValueCmp(b.value, a.value) == Less)
    || (a.pos == b.pos && a.value == b.value && a.id < b.id)
  }

  /** `Ord::cmp` for loop events. */
  function Cmp(a: LoopEvent, b: LoopEvent): (o: Ordering)
    ensures o == Equal <==> a == b
    ensures o == Less <==> Before(a, b)
    ensures o == Greater <==> Before(b, a)
  {
    var byPos := PosCmp(a.pos, b.pos);
    if a == b then Equal
    else if byPos == Equal then
      var byValue := ValueCmp(b.value, a.value);
      if byValue == Equal then IntCmp(a.id, b.id) else byValue
    else byPos
  }

  lemma BeforeTransitive(a: LoopEvent, b: LoopEvent, c: LoopEvent)
    requires Before(a, b) && Before(b, c)
    ensures Before(a, c)
  {
  }

  /** A recorder vector: strictly increasing under `Cmp`, so no event is
      stored twice. */
  ghost predicate Sorted(s: seq<LoopEvent>)
  {
    forall i, j :: 0 <= i < j < |s| ==> Before(s[i], s[j])
  }

  /** Positions never decrease along the vector. */
  ghost predicate PosSorted(s: seq<LoopEvent>)
  {
    forall i, j :: 0 <= i < j < |s| ==> MidiTimes.LessEq(s[i].pos, s[j].pos)
  }

  lemma SortedIsPosSorted(s: seq<LoopEvent>)
    requires Sorted(s)
    ensures PosSorted(s)
  {
  }

  lemma SortedPartitioned(s: seq<LoopEvent>, e: LoopEvent)
    requires Sorted(s)
    ensures Partitioned(s, v => Cmp(v, e))
  {
    forall i, j | 0 <= i < j < |s|
      ensures Rank(Cmp(s[i], e)) <= Rank(Cmp(s[j], e))
    {
      if Cmp(s[j], e) == Less {
        BeforeTransitive(s[i], s[j], e);
      }
    }
  }

  /** `insert_into`: keeps the vector sorted; an event equal to one already
      stored replaces it (leaving the vector unchanged), any other event is
      inserted at its place. */
  method InsertInto(e: LoopEvent, target: seq<LoopEvent>) returns (r: seq<LoopEvent>)
    requires Sorted(target)
    ensures Sorted(r)
    ensures e in r
    ensures e in target ==> r == target
    ensures e !in target ==> multiset(r) == multiset(target) + multiset{e}
  {
    SortedPartitioned(target, e);
    var found := BinarySearchBy(target, v => Cmp(v, e));
    match found
    case Found(index) =>
      // push, then swap_remove(index): the pushed event takes the place of
      // the one at `index`
      var pushed := target + [e];
      r := pushed[..index] + [pushed[|pushed| - 1]] + pushed[index + 1..|pushed| - 1];
      PushSwapRemove(target, e, index);
    case NotFound(index) =>
      InsertAtPlace(e, target, index);
      r := target[..index] + [e] + target[index..];
  }

  /** Pushing an event equal to the one at `index` and swap-removing
      `index` leaves the vector as it was. */
  lemma PushSwapRemove(target: seq<LoopEvent>, e: LoopEvent, index: nat)
    requires index < |target| && target[index] == e
    ensures var pushed := target + [e];
      pushed[..index] + [pushed[|pushed| - 1]] + pushed[index + 1..|pushed| - 1] == target
  {
    var pushed := target + [e];
    assert pushed[..index] + [pushed[|pushed| - 1]] + pushed[index + 1..|pushed| - 1] == target[index := e];
  }

  /** Putting an event between the events before it and the events after
      it keeps the vector sorted and adds exactly that event, which was
      not there before. */
  lemma InsertAtPlace(e: LoopEvent, target: seq<LoopEvent>, index: nat)
    requires Sorted(target) && index <= |target|
    requires forall i :: 0 <= i < index ==> Cmp(target[i], e) == Less
    requires forall i :: index <= i < |target| ==> Cmp(target[i], e) == Greater
    ensures var r := target[..index] + [e] + target[index..];
      Sorted(r) && e in r && e !in target && multiset(r) == multiset(target) + multiset{e}
  {
    assert target == target[..index] + target[index..];
    var r := target[..index] + [e] + target[index..];
    forall i, j | 0 <= i < j < |r| ensures Before(r[i], r[j]) {
      if j < index || i > index {
      } else if i == index {
        assert r[j] == target[j - 1];
      } else if j == index {
        assert r[i] == target[i];
      } else {
        assert r[i] == target[i] && r[j] == target[j - 1];
      }
    }
    forall i | 0 <= i < |target| ensures target[i] != e {
      if i < index {
        assert Before(target[i], e);
      } else {
        assert Before(e, target[i]);
      }
    }
  }

  /** Compares a position against a bound, never answering `Equal`, so the
      binary search finds the first event at or after the bound. */
  function BelowBound(bound: MidiTime): LoopEvent -> Ordering
  {
    (v: LoopEvent) => if MidiTimes.Less(v.pos, bound) then Less else Greater
  }

  lemma PosSortedPartitionedBelow(s: seq<LoopEvent>, bound: MidiTime)
    requires PosSorted(s)
    ensures Partitioned(s, BelowBound(bound))
  {
  }

  lemma PosSortedPartitionedAt(s: seq<LoopEvent>, p: MidiTime)
    requires PosSorted(s)
    ensures Partitioned(s, (v: LoopEvent) => PosCmp(v.pos, p))
  {
  }

  /** Index of the first event at or after `bound`. */
  method FirstAtOrAfter(collection: seq<LoopEvent>, bound: MidiTime) returns (index: nat)
    requires PosSorted(collection)
    ensures index <= |collection|
    ensures forall i :: 0 <= i < index ==> MidiTimes.Less(collection[i].pos, bound)
    ensures forall i :: index <= i < |collection| ==> !MidiTimes.Less(collection[i].pos, bound)
  {
    PosSortedPartitionedBelow(collection, bound);
    var found := BinarySearchBy(collection, BelowBound(bound));
    index := found.index;
  }

  /** `range`: the contiguous run of events with `startPos <= pos < endPos`
      (empty when the end is not after the start). */
  method Range(collection: seq<LoopEvent>, startPos: MidiTime, endPos: MidiTime)
    returns (r: seq<LoopEvent>)
    requires PosSorted(collection)
    ensures exists lo, hi :: 0 <= lo <= hi <= |collection| && r == collection[lo..hi]
    ensures forall x :: x in r <==>
      x in collection && MidiTimes.LessEq(startPos, x.pos) && MidiTimes.Less(x.pos, endPos)
  {
    var startIndex := FirstAtOrAfter(collection, startPos);
    var endIndex := FirstAtOrAfter(collection, endPos);
    var hi := if startIndex > endIndex then startIndex else endIndex;
    r := collection[startIndex..hi];
    forall x | x in collection && MidiTimes.LessEq(startPos, x.pos) && MidiTimes.Less(x.pos, endPos)
      ensures x in r
    {
      var k :| 0 <= k < |collection| && collection[k] == x;
      assert startIndex <= k < endIndex;
      assert r[k - startIndex] == x;
    }
  }

  /** `at`: the event exactly at `pos` if there is one, otherwise the last
      event before it, and nothing when every event comes later. */
  method At(collection: seq<LoopEvent>, pos: MidiTime) returns (r: Option<LoopEvent>)
    requires PosSorted(collection)
    ensures (exists i :: 0 <= i < |collection| && collection[i].pos == pos) ==>
      r.Some? && r.value in collection && r.value.pos == pos
    ensures r.Some? ==> r.value in collection && MidiTimes.LessEq(r.value.pos, pos)
    ensures r.Some? ==> forall i :: 0 <= i < |collection| && MidiTimes.LessEq(collection[i].pos, pos) ==>
      MidiTimes.LessEq(collection[i].pos, r.value.pos)
    ensures r.None? ==> forall i :: 0 <= i < |collection| ==> MidiTimes.Less(pos, collection[i].pos)
    ensures r.Some? && (forall i :: 0 <= i < |collection| ==> collection[i].pos != pos) ==>
      exists i :: 0 <= i < |collection| && r.value == collection[i]
        && forall j :: i < j < |collection| ==> MidiTimes.Less(pos, collection[j].pos)
  {
    PosSortedPartitionedAt(collection, pos);
    var found := BinarySearchBy(collection, (v: LoopEvent) => PosCmp(v.pos, pos));
    match found
    case Found(index) =>
      r := Some(collection[index]);
    case NotFound(index) =>
      if index > 0 {
        r := Some(collection[index - 1]);
      } else {
        r := None;
      }
  }
}
