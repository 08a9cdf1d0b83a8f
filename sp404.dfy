/** The SP-404 sampler: twelve pads per bank, banks picked by a shared
    offset, and choke groups picked by two shared switches. */
module Sp404 {
  import opened RustInt
  import opened OutputValues
  import opened Chunk
  import opened NoteTriggers

  /** The pad velocities: a master level and one level per pad. */
  type PadLevels = s: seq<U8> | |s| == 12 witness [100, 100, 100, 100, 100, 100, 100, 100, 100, 100, 100, 100]

  /** `SP404VelocityMap`, shared with whatever edits the levels. */
  class VelocityLevels {
    var master: U8
    var triggers: PadLevels

    constructor ()
      ensures master == 127 && forall i :: 0 <= i < 12 ==> triggers[i] == 100
    {
      master := 127;
      triggers := [100, 100, 100, 100, 100, 100, 100, 100, 100, 100, 100, 100];
    }
  }

  /** `SP404Choke`: the two switches that split the pads into groups. */
  class Chokes {
    var a: bool
    var b: bool

    constructor ()
      ensures !a && !b
    {
      a := false;
      b := false;
    }
  }

  /** The shared bank offset (an atomic `usize`). */
  class BankOffset {
    var value: nat

    constructor (value: nat)
      ensures this.value == value
    {
      this.value := value;
    }
  }

  /** A pad's velocity: the pad level scaled by master/128, capped at 127
      and truncated. The source computes this in `f64`; every intermediate
      value is a dyadic fraction small enough to be exact, so the integer
      quotient is the same number. */
  function ScaledVelocity(master: U8, level: U8): (velocity: U8)
    ensures velocity <= 127
    ensures velocity * 128 <= master * level
    ensures velocity < 127 ==> master * level < (velocity + 1) * 128
    ensures master == 128 && level <= 127 ==> velocity == level
  {
    var scaled := master * level / 128;
    if scaled < 127 then scaled else 127
  }

  /** The note a pad plays in bank `offset`: five banks of twelve notes
      from 47, as a `u8`. */
  function PadNote(offset: nat, id: nat): (note: int)
    ensures 0 <= note < 256
    ensures id < 12 ==> note == 47 + (offset % 5) * 12 + id
  {
    AsU8(47 + (offset % 5) * 12 + id)
  }

  /** The channel of bank `offset`: the device's channel for the first
      five banks, the next channel for the rest. */
  function PadChannel(channel: int, offset: nat): (ch: int)
    ensures ch == channel <==> offset < 5
    ensures ch != channel ==> ch == channel + 1
  {
    if offset < 5 then channel else channel + 1
  }

  /** The ten banks and twelve pads give 120 different (channel, note)
      pairs: no two pads of two banks collide. */
  lemma PadsDistinct(channel: int, o1: nat, id1: nat, o2: nat, id2: nat)
    requires o1 < 10 && o2 < 10 && id1 < 12 && id2 < 12
    requires (o1, id1) != (o2, id2)
    ensures (PadChannel(channel, o1), PadNote(o1, id1)) != (PadChannel(channel, o2), PadNote(o2, id2))
  {
    var n1 := (o1 % 5) * 12 + id1;
    var n2 := (o2 % 5) * 12 + id2;
    assert PadNote(o1, id1) == 47 + n1 && PadNote(o2, id2) == 47 + n2;
    if o1 == o2 {
      assert n1 != n2;
    } else if (o1 < 5) != (o2 < 5) {
      assert PadChannel(channel, o1) != PadChannel(channel, o2);
    } else {
      assert o1 % 5 != o2 % 5;
      assert n1 / 12 == o1 % 5 && n2 / 12 == o2 % 5;
    }
  }

  /** The pads a choke switch setting groups with `id`, as `[from, to)`:
      both switches make the groups 0-7, 8-9 and 10 up; `a` alone makes
      0-7 and 8 up; `b` alone makes 0-9 and 10 up; neither makes 0-11. */
  function ChokeRange(a: bool, b: bool, id: nat): (range: (nat, nat))
    ensures !a && !b ==> range == (0, 12)
    ensures id < 12 ==> range.0 <= id < range.1
    ensures range.0 <= range.1 <= 12
  {
    if a && b then
      if 8 <= id < 10 then (8, 10) else if id >= 10 then (10, 12) else (0, 8)
    else if a && !b then
      if id >= 8 then (8, 12) else (0, 8)
    else if !a && b then
      if id >= 10 then (10, 12) else (0, 10)
    else (0, 12)
  }

  /** The ranges partition the twelve pads into groups: two pads choke
      each other's group exactly when they are in the same one. */
  lemma ChokeGroupsPartition(a: bool, b: bool, i: nat, j: nat)
    requires i < 12 && j < 12
    ensures ChokeRange(a, b, i).0 <= j < ChokeRange(a, b, i).1 <==> ChokeRange(a, b, i) == ChokeRange(a, b, j)
  {
  }

  /** `SP404`: one device instance. */
  class SP404 {
    const channel: int
    const offset: BankOffset
    const levels: VelocityLevels
    const chokes: Chokes
    var outputValues: map<nat, Sounding>
    ghost var sent: seq<seq<int>>

    constructor (channel: int, offset: BankOffset, levels: VelocityLevels, chokes: Chokes)
      ensures this.channel == channel && this.offset == offset && this.levels == levels && this.chokes == chokes
      ensures outputValues == map[] && sent == []
    {
      this.channel := channel;
      this.offset := offset;
      this.levels := levels;
      this.chokes := chokes;
      outputValues := map[];
      sent := [];
    }

    function Schedule(): ScheduleMode { Percussion }

    /** `trigger`: a release sends a note-off for what the id recorded. A
        press plays the pad in the current bank at the pad's scaled level
        (ignoring the incoming velocity); if the id was still sounding a
        different channel or note, that one is stopped first. */
    method Trigger(id: nat, value: OutputValue)
      modifies this
      ensures value.Off? ==>
        var released := Release(old(outputValues), id, 128 - 1);
        outputValues == released.0 && sent == old(sent) + released.1
      ensures value.On? ==>
        var entry := (PadChannel(channel, offset.value), PadNote(offset.value, id),
                      ScaledVelocity(levels.master, levels.triggers[id % 12]));
        var stop := if id in old(outputValues) && (old(outputValues)[id].0 != entry.0 || old(outputValues)[id].1 != entry.1)
                    then [[128 - 1 + old(outputValues)[id].0, old(outputValues)[id].1, 0]] else [];
        outputValues == old(outputValues)[id := entry]
        && sent == old(sent) + stop + [[144 - 1 + entry.0, entry.1, entry.2]]
    {
      match value {
        case Off =>
          if id in outputValues {
            var (ch, note, _) := outputValues[id];
            sent := sent + [[128 - 1 + ch, note, 0]];
            outputValues := outputValues - {id};
          }
        case On(_) =>
          var offsetValue := offset.value;
          var ch := if offsetValue < 5 then channel else channel + 1;
          var velocityIndex := id % |levels.triggers|;
          var velocity := ScaledVelocity(levels.master, levels.triggers[velocityIndex]);
          var note := AsU8(47 + (offsetValue % 5) * 12 + id);
          if id in outputValues {
            var (previousChannel, previousNote, _) := outputValues[id];
            if previousChannel != ch || previousNote != note {
              sent := sent + [[128 - 1 + previousChannel, previousNote, 0]];
            }
          }
          outputValues := outputValues[id := (ch, note, velocity)];
          sent := sent + [[144 - 1 + ch, note, velocity]];
      }
    }

    /** `get_chokes_for`: the sounding pads of `id`'s choke group, in
        ascending order. */
    method GetChokesFor(id: nat) returns (result: seq<nat>)
      ensures forall i, j :: 0 <= i < j < |result| ==> result[i] < result[j]
      ensures forall p :: p in result <==>
        ChokeRange(chokes.a, chokes.b, id).0 <= p < ChokeRange(chokes.a, chokes.b, id).1 && p in outputValues
    {
      var from := 0;
      var to := 12;
      if chokes.a && chokes.b {
        if id >= 8 && id < 10 {
          from := 8;
          to := 10;
        } else if id >= 10 {
          from := 10;
        } else {
          to := 8;
        }
      } else if chokes.a && !chokes.b {
        if id >= 8 {
          from := 8;
        } else {
          to := 8;
        }
      } else if !chokes.a && chokes.b {
        if id >= 10 {
          from := 10;
        } else {
          to := 10;
        }
      }
      assert (from, to) == ChokeRange(chokes.a, chokes.b, id);
      result := [];
      var i := from;
      while i < to
        invariant from <= i <= to
        invariant forall k, l :: 0 <= k < l < |result| ==> result[k] < result[l]
        invariant forall k :: 0 <= k < |result| ==> result[k] < i
        invariant forall p :: p in result <==> from <= p < i && p in outputValues
      {
        if i in outputValues {
          result := result + [i];
        }
        i := i + 1;
      }
    }
  }

  /** `ChokeSwitch`: pad 0 holds switch `a`, pad 1 holds switch `b`. */
  class ChokeSwitch {
    const chokes: Chokes

    constructor (chokes: Chokes)
      ensures this.chokes == chokes
    {
      this.chokes := chokes;
    }

    method Trigger(id: nat, value: OutputValue)
      modifies chokes
      ensures chokes.a == (if id == 0 then value.On? else old(chokes.a))
      ensures chokes.b == (if id == 1 then value.On? else old(chokes.b))
    {
      if id == 0 {
        chokes.a := IsOn(value);
      } else if id == 1 {
        chokes.b := IsOn(value);
      }
    }
  }

  /** The bank picked by each pad of the SP-404 offset chooser. */
  const SP404_OFFSETS: seq<nat> := [0, 1, 2, 3, 4, 5, 6, 7, 8, 9]

  /** The Blackbox slice bank picked by each pad, in the device's layout. */
  const SLICER_OFFSETS: seq<nat> := [0, 1, 2, 3, 5, 6, 7, 8, 4, 9]

  /** The offset a chooser stores: a press stores its pad's entry of
      `table`; a release keeps the current offset. */
  function ChosenOffset(table: seq<nat>, current: nat, id: nat, value: OutputValue): (chosen: nat)
    requires |table| > 0
    ensures value.On? ==> chosen in table
    ensures value.Off? ==> chosen == current
  {
    if value.On? then table[id % |table|] else current
  }

  /** The SP-404 chooser stores the pad number itself, always a bank below
      ten, and pressing the same pad again changes nothing. */
  lemma Sp404OffsetIsPad(current: nat, id: nat, velocity: U8)
    ensures ChosenOffset(SP404_OFFSETS, current, id, On(velocity)) == id % 10 < 10
    ensures ChosenOffset(SP404_OFFSETS, ChosenOffset(SP404_OFFSETS, current, id, On(velocity)), id, On(velocity))
         == ChosenOffset(SP404_OFFSETS, current, id, On(velocity))
  {
  }

  /** The Blackbox layout is a permutation of the ten banks: every bank
      is reachable, from exactly one pad. */
  lemma SlicerOffsetsPermute()
    ensures forall i, j :: 0 <= i < j < 10 ==> SLICER_OFFSETS[i] != SLICER_OFFSETS[j]
    ensures forall bank :: 0 <= bank < 10 ==> bank in SLICER_OFFSETS
    ensures forall i :: 0 <= i < 10 ==> SLICER_OFFSETS[i] < 10
  {
    assert SLICER_OFFSETS[8] == 4;
  }

  /** `SP404Offset`: writes the shared bank offset. */
  class Sp404Offset {
    const offset: BankOffset

    constructor (offset: BankOffset)
      ensures this.offset == offset
    {
      this.offset := offset;
    }

    method Trigger(id: nat, value: OutputValue)
      modifies offset
      ensures offset.value == ChosenOffset(SP404_OFFSETS, old(offset.value), id, value)
    {
      match value {
        case Off =>
        case On(_) =>
          offset.value := SP404_OFFSETS[id % |SP404_OFFSETS|];
      }
    }
  }

  /** `BlackboxSlicerOffset`: writes the shared slicer bank, one pad held
      at a time. */
  class BlackboxSlicerOffset {
    const offset: BankOffset

    constructor (offset: BankOffset)
      ensures this.offset == offset
    {
      this.offset := offset;
    }

    function Latching(): LatchMode { LatchSingle }

    method Trigger(id: nat, value: OutputValue)
      modifies offset
      ensures offset.value == ChosenOffset(SLICER_OFFSETS, old(offset.value), id, value)
    {
      match value {
        case Off =>
        case On(_) =>
          offset.value := SLICER_OFFSETS[id % |SLICER_OFFSETS|];
      }
    }
  }
}
