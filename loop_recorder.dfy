/** `LoopRecorder`: every event played, kept per trigger id in a vector
    sorted by `LoopEvents.Cmp`. */
module LoopRecorders {
  import opened Prelude
  import opened MidiTimes
  import opened LoopEvents

  /** Every event of the vector belongs to `id`. */
  ghost predicate OfId(s: seq<LoopEvent>, id: nat)
  {
    forall i :: 0 <= i < |s| ==> s[i].id == id
  }

  /** The events of `s` that lie in `[startPos, endPos)`. */
  ghost predicate InWindow(x: LoopEvent, startPos: MidiTime, endPos: MidiTime)
  {
    MidiTimes.LessEq(startPos, x.pos) && MidiTimes.Less(x.pos, endPos)
  }

  class LoopRecorder {
    var perId: map<nat, seq<LoopEvent>>

    ghost predicate Valid()
      reads this
    {
      forall id :: id in perId ==> Sorted(perId[id]) && OfId(perId[id], id)
    }

    constructor ()
      ensures Valid() && perId == map[]
    {
      perId := map[];
    }

    /** `allocate`: makes sure the id has a vector; an existing vector only
        has capacity reserved, which the model does not track. */
    method Allocate(id: nat, capacity: nat)
      requires Valid()
      modifies this
      ensures Valid()
      ensures id in old(perId) ==> perId == old(perId)
      ensures id !in old(perId) ==> perId == old(perId)[id := []]
    {
      if id !in perId {
        perId := perId[id := []];
      }
    }

    /** `add`: inserts the event into its id's vector, creating the vector
        on first use; an identical event is not stored twice and no other
        id's events change. */
    method Add(event: LoopEvent)
      requires Valid()
      modifies this
      ensures Valid()
      ensures perId.Keys == old(perId).Keys + {event.id}
      ensures forall id :: id in old(perId) && id != event.id ==> perId[id] == old(perId)[id]
      ensures var before := if event.id in old(perId) then old(perId)[event.id] else [];
        event in perId[event.id] &&
        multiset(perId[event.id]) ==
          if event in before then multiset(before) else multiset(before) + multiset{event}
    {
      var collection := if event.id in perId then perId[event.id] else [];
      var updated := InsertInto(event, collection);
      forall i | 0 <= i < |updated| ensures updated[i].id == event.id {
        assert updated[i] in multiset(updated);
      }
      perId := perId[event.id := updated];
    }

    /** `get_range_for`: the id's events in `[startPos, endPos)`, or nothing
        when the id has never been allocated or recorded. */
    method GetRangeFor(id: nat, startPos: MidiTime, endPos: MidiTime)
      returns (r: Option<seq<LoopEvent>>)
      requires Valid()
      ensures r.None? <==> id !in perId
      ensures r.Some? ==> forall x :: x in r.value <==> x in perId[id] && InWindow(x, startPos, endPos)
    {
      if id in perId {
        SortedIsPosSorted(perId[id]);
        var events := Range(perId[id], startPos, endPos);
        r := Some(events);
      } else {
        r := None;
      }
    }

    /** `has_events`: some `On` event of the id lies in the window. */
    method HasEvents(id: nat, startPos: MidiTime, endPos: MidiTime) returns (b: bool)
      requires Valid()
      ensures b <==> (id in perId &&
                      exists x :: x in perId[id] && InWindow(x, startPos, endPos) && IsOn(x))
    {
      var range := GetRangeFor(id, startPos, endPos);
      b := false;
      if range.Some? {
        var events := range.value;
        var i := 0;
        while i < |events|
          invariant 0 <= i <= |events|
          invariant b <==> exists k :: 0 <= k < i && IsOn(events[k])
        {
          b := b || IsOn(events[i]);
          i := i + 1;
        }
      }
    }

    /** `get_event_at`: the id's event at `pos`, else its last event
        before `pos`. */
    method GetEventAt(id: nat, pos: MidiTime) returns (r: Option<LoopEvent>)
      requires Valid()
      ensures id !in perId ==> r.None?
      ensures id in perId && (exists x :: x in perId[id] && x.pos == pos) ==>
        r.Some? && r.value in perId[id] && r.value.pos == pos
      ensures r.Some? ==> id in perId && r.value in perId[id] && MidiTimes.LessEq(r.value.pos, pos)
      ensures r.Some? ==> forall x :: x in perId[id] && MidiTimes.LessEq(x.pos, pos) ==>
        MidiTimes.LessEq(x.pos, r.value.pos)
      ensures r.None? && id in perId ==> forall x :: x in perId[id] ==> MidiTimes.Less(pos, x.pos)
      ensures r.Some? && (forall x :: x in perId[id] ==> x.pos != pos) ==>
        exists i :: 0 <= i < |perId[id]| && r.value == perId[id][i]
          && forall j :: i < j < |perId[id]| ==> MidiTimes.Less(pos, perId[id][j].pos)
    {
      if id in perId {
        SortedIsPosSorted(perId[id]);
        r := At(perId[id], pos);
      } else {
        r := None;
      }
    }

    /** `get_next_event_at`: the event after the one found at `pos`, or,
        when no event is at `pos`, the first event after it. */
    method GetNextEventAt(id: nat, pos: MidiTime) returns (r: Option<LoopEvent>)
      requires Valid()
      ensures id !in perId ==> r.None?
      ensures r.Some? ==> id in perId && r.value in perId[id] && MidiTimes.LessEq(pos, r.value.pos)
      ensures r.Some? ==> forall x :: x in perId[id] && MidiTimes.Less(pos, x.pos) ==>
        MidiTimes.LessEq(r.value.pos, x.pos)
      ensures id in perId && (exists x :: x in perId[id] && MidiTimes.Less(pos, x.pos)) ==> r.Some?
      ensures r.Some? && (forall x :: x in perId[id] ==> x.pos != pos) ==> MidiTimes.Less(pos, r.value.pos)
    {
      if id in perId {
        var collection := perId[id];
        SortedIsPosSorted(collection);
        PosSortedPartitionedAt(collection, pos);
        var found := BinarySearchBy(collection, (v: LoopEvent) => PosCmp(v.pos, pos));
        match found
        case Found(index) =>
          r := if index + 1 < |collection| then Some(collection[index + 1]) else None;
          if r.Some? {
            forall x | x in collection && MidiTimes.Less(pos, x.pos)
              ensures MidiTimes.LessEq(r.value.pos, x.pos)
            {
              var k :| 0 <= k < |collection| && collection[k] == x;
              assert k > index;
            }
          } else {
            forall x | x in collection ensures !MidiTimes.Less(pos, x.pos) {
              var k :| 0 <= k < |collection| && collection[k] == x;
              assert k <= index;
            }
          }
        case NotFound(index) =>
          r := if index < |collection| then Some(collection[index]) else None;
          if r.Some? {
            forall x | x in collection && MidiTimes.Less(pos, x.pos)
              ensures MidiTimes.LessEq(r.value.pos, x.pos)
            {
              var k :| 0 <= k < |collection| && collection[k] == x;
              assert k >= index;
            }
          }
      } else {
        r := None;
      }
    }
  }
}
