/** The drum devices: each grid id plays one drum note, hits that land on a
    sixteenth-note step the velocity map holds are accented, and the kick
    (id 0) is echoed to a second, sync output. */
module Drums {
  import opened RustInt
  import opened OutputValues
  import opened Chunk
  import opened MidiTimes
  import opened VelocityMaps
  import opened NoteTriggers

  /** The drum note each id plays on the Blackbox. */
  const BLACKBOX_DRUMS: seq<int> := [48, 49, 50, 51, 44, 45, 46, 47]
  /** The percussion notes of the Blackbox. */
  const BLACKBOX_PERC: seq<int> := [40, 41, 42, 43]
  /** The drum note each id plays on the Blofeld. */
  const BLOFELD_DRUMS: seq<int> := [36, 38, 39, 37, 50, 41, 43, 52]

  /** A sixteenth note, in ticks: `MidiTime::from_measure(1, 4)`. */
  function Sixteenth(): (t: int)
    ensures t == 6
  {
    FromMeasure(1, 4).ticks
  }

  /** The step of the velocity map a position falls on: the sixteenth it
      is in, counted within a bar of eight with Rust's truncating `/` and
      `%`, then cast to `u32`. */
  function AccentSlot(ticks: int): (slot: nat)
    ensures ticks >= 0 ==> slot < 8
    ensures ticks < 0 ==> slot < 8 || 0x1_0000_0000 - 8 < slot
  {
    TruncRemBounds(TruncDiv(ticks, Sixteenth()), 8);
    AsU32(TruncRem(TruncDiv(ticks, Sixteenth()), 8))
  }

  /** Whether a position falls exactly on a sixteenth. */
  predicate OnGrid(ticks: int)
  {
    Rem(MidiTime(ticks, 0), FromMeasure(1, 4)).ticks == 0
  }

  /** From the start of the song, the slot is the position's sixteenth
      within the bar, and the grid is every sixth tick. */
  lemma AccentSlotIsStep(ticks: int)
    requires ticks >= 0
    ensures AccentSlot(ticks) == (ticks / 6) % 8 < 8
    ensures OnGrid(ticks) <==> ticks % 6 == 0
  {
    TruncNonNegative(ticks, 6);
    TruncNonNegative(ticks / 6, 8);
  }

  /** The accent pattern repeats every bar of eight sixteenths. */
  lemma AccentSlotPeriodic(ticks: int)
    requires ticks >= 0
    ensures AccentSlot(ticks + 48) == AccentSlot(ticks)
    ensures OnGrid(ticks + 48) == OnGrid(ticks)
  {
    AccentSlotIsStep(ticks);
    AccentSlotIsStep(ticks + 48);
    assert (ticks + 48) / 6 == ticks / 6 + 8;
  }

  /** The Blackbox velocity: a hit on a held step is raised by 50 (with
      `u8` arithmetic), at most to 127; any other hit keeps its velocity. */
  function Accented(base: U8, ticks: int, held: set<nat>): (velocity: U8)
    ensures base <= 127 ==> base <= velocity <= 127
    ensures !OnGrid(ticks) || AccentSlot(ticks) !in held ==> velocity == base
    ensures OnGrid(ticks) && AccentSlot(ticks) in held && base <= 77 ==> velocity == base + 50
  {
    if OnGrid(ticks) && AccentSlot(ticks) in held then
      var raised := AsU8(base + 50);
      if raised < 127 then raised else 127
    else base
  }

  /** The Blofeld velocity: the velocity the map holds for the step on a
      hit on the grid, otherwise 100; the incoming velocity is ignored. */
  function BlofeldVelocity(ticks: int, velocities: map<nat, U8>): (velocity: U8)
    ensures OnGrid(ticks) && AccentSlot(ticks) in velocities ==> velocity == velocities[AccentSlot(ticks)]
    ensures !OnGrid(ticks) || AccentSlot(ticks) !in velocities ==> velocity == 100
  {
    if OnGrid(ticks) then
      if AccentSlot(ticks) in velocities then velocities[AccentSlot(ticks)] else 100
    else 100
  }

  /** Holding step `k` of the velocity map accents the hits on that step
      in every bar: full velocity on the Blofeld, +50 on the Blackbox. */
  lemma HeldStepAccents(velocities: map<nat, U8>, k: nat, ticks: int, base: U8)
    requires ticks >= 0 && ticks % 6 == 0 && (ticks / 6) % 8 == k
    requires base <= 127
    ensures BlofeldVelocity(ticks, velocities[k := 127]) == 127
    ensures Accented(base, ticks, velocities[k := 127].Keys) == (if base + 50 < 127 then base + 50 else 127)
  {
    AccentSlotIsStep(ticks);
  }

  /** Releasing step `k` takes the accent off again. */
  lemma ReleasedStepPlain(velocities: map<nat, U8>, k: nat, ticks: int, base: U8)
    requires ticks >= 0 && (ticks / 6) % 8 == k
    ensures BlofeldVelocity(ticks, velocities - {k}) == 100
    ensures Accented(base, ticks, (velocities - {k}).Keys) == base
  {
    AccentSlotIsStep(ticks);
  }

  /** `BlackboxDrums`: eight drums on one channel, the kick mirrored as
      note 36 on the sync channel. */
  class BlackboxDrums {
    const channel: int
    const syncChannel: int
    const velocities: Velocities
    var lastPos: MidiTime
    /** What each sounding id played. */
    var outputValues: map<nat, Sounding>
    /** Messages sent to the drum output, in order. */
    ghost var sent: seq<seq<int>>
    /** Messages sent to the sync output, in order. */
    ghost var syncSent: seq<seq<int>>

    constructor (channel: int, syncChannel: int, velocities: Velocities)
      ensures this.channel == channel && this.syncChannel == syncChannel && this.velocities == velocities
      ensures lastPos == Zero() && outputValues == map[] && sent == [] && syncSent == []
    {
      this.channel := channel;
      this.syncChannel := syncChannel;
      this.velocities := velocities;
      lastPos := Zero();
      outputValues := map[];
      sent := [];
      syncSent := [];
    }

    /** `on_tick`: remembers the position for the accent rule. */
    method OnTick(time: MidiTime)
      modifies this
      ensures lastPos == time
      ensures outputValues == old(outputValues) && sent == old(sent) && syncSent == old(syncSent)
    {
      lastPos := time;
    }

    /** `trigger`: a press plays the id's drum with the accented velocity
        and records it; a release silences what the id recorded (a note-on
        of velocity zero); the kick does both on the sync output too. */
    method Trigger(id: nat, value: OutputValue)
      modifies this
      ensures lastPos == old(lastPos)
      ensures value.Off? ==>
        var released := Release(old(outputValues), id, 144 - 1);
        outputValues == released.0 && sent == old(sent) + released.1
        && syncSent == old(syncSent) + (if id == 0 && id in old(outputValues) then [[127 + syncChannel, 36, 0]] else [])
      ensures value.On? ==>
        var velocity := Accented(value.velocity, lastPos.ticks, velocities.values.Keys);
        var pressed := Press(old(outputValues), id, (channel, BLACKBOX_DRUMS[id % 8], velocity), 144 - 1);
        outputValues == pressed.0 && sent == old(sent) + pressed.1
        && syncSent == old(syncSent) + (if id == 0 then [[143 + syncChannel, 36, velocity]] else [])
    {
      match value {
        case Off =>
          if id in outputValues {
            var (ch, note, _) := outputValues[id];
            sent := sent + [[144 - 1 + ch, note, 0]];
            outputValues := outputValues - {id};
            if id == 0 {
              syncSent := syncSent + [[128 - 1 + syncChannel, 36, 0]];
            }
          }
        case On(baseVelocity) =>
          var velocityPos := TruncRem(TruncDiv(lastPos.ticks, FromMeasure(1, 4).ticks), 8);
          var pos := Rem(lastPos, FromMeasure(1, 4));
          var velocity := baseVelocity;
          if pos.ticks == 0 && AsU32(velocityPos) in velocities.values {
            var raised := AsU8(baseVelocity + 50);
            velocity := if raised < 127 then raised else 127;
          }
          var note := BLACKBOX_DRUMS[id % |BLACKBOX_DRUMS|];
          sent := sent + [[144 - 1 + channel, note, velocity]];
          if id == 0 {
            syncSent := syncSent + [[144 - 1 + syncChannel, 36, velocity]];
          }
          outputValues := outputValues[id := (channel, note, velocity)];
      }
    }
  }

  /** `BlackboxPerc`: four percussion notes, accented like the drums, with
      no sync output. */
  class BlackboxPerc {
    const channel: int
    const velocities: Velocities
    var lastPos: MidiTime
    var outputValues: map<nat, Sounding>
    ghost var sent: seq<seq<int>>

    constructor (channel: int, velocities: Velocities)
      ensures this.channel == channel && this.velocities == velocities
      ensures lastPos == Zero() && outputValues == map[] && sent == []
    {
      this.channel := channel;
      this.velocities := velocities;
      lastPos := Zero();
      outputValues := map[];
      sent := [];
    }

    method OnTick(time: MidiTime)
      modifies this
      ensures lastPos == time
      ensures outputValues == old(outputValues) && sent == old(sent)
    {
      lastPos := time;
    }

    /** `trigger`: as the drums, with the note taken from the four
        percussion notes. */
    method Trigger(id: nat, value: OutputValue)
      modifies this
      ensures lastPos == old(lastPos)
      ensures value.Off? ==>
        var released := Release(old(outputValues), id, 144 - 1);
        outputValues == released.0 && sent == old(sent) + released.1
      ensures value.On? ==>
        var velocity := Accented(value.velocity, lastPos.ticks, velocities.values.Keys);
        var pressed := Press(old(outputValues), id, (channel, BLACKBOX_PERC[id % 4], velocity), 144 - 1);
        outputValues == pressed.0 && sent == old(sent) + pressed.1
    {
      match value {
        case Off =>
          if id in outputValues {
            var (ch, note, _) := outputValues[id];
            sent := sent + [[144 - 1 + ch, note, 0]];
            outputValues := outputValues - {id};
          }
        case On(baseVelocity) =>
          var velocityPos := TruncRem(TruncDiv(lastPos.ticks, FromMeasure(1, 4).ticks), 8);
          var pos := Rem(lastPos, FromMeasure(1, 4));
          var velocity := baseVelocity;
          if pos.ticks == 0 && AsU32(velocityPos) in velocities.values {
            var raised := AsU8(baseVelocity + 50);
            velocity := if raised < 127 then raised else 127;
          }
          var note := BLACKBOX_PERC[id % |BLACKBOX_PERC|];
          sent := sent + [[144 - 1 + channel, note, velocity]];
          outputValues := outputValues[id := (channel, note, velocity)];
      }
    }
  }

  /** `BlofeldDrums`: eight drums whose velocity comes from the velocity
      map alone; releases are note-offs, and the kick is mirrored as note
      24 on the sync channel. */
  class BlofeldDrums {
    const channel: int
    const syncChannel: int
    const velocities: Velocities
    var lastPos: MidiTime
    var outputValues: map<nat, Sounding>
    ghost var sent: seq<seq<int>>
    ghost var syncSent: seq<seq<int>>

    constructor (channel: int, syncChannel: int, velocities: Velocities)
      ensures this.channel == channel && this.syncChannel == syncChannel && this.velocities == velocities
      ensures lastPos == Zero() && outputValues == map[] && sent == [] && syncSent == []
    {
      this.channel := channel;
      this.syncChannel := syncChannel;
      this.velocities := velocities;
      lastPos := Zero();
      outputValues := map[];
      sent := [];
      syncSent := [];
    }

    method OnTick(time: MidiTime)
      modifies this
      ensures lastPos == time
      ensures outputValues == old(outputValues) && sent == old(sent) && syncSent == old(syncSent)
    {
      lastPos := time;
    }

    /** `trigger`: a press plays the id's drum at the map's velocity for
        the step; a release sends the note-off for what the id recorded. */
    method Trigger(id: nat, value: OutputValue)
      modifies this
      ensures lastPos == old(lastPos)
      ensures value.Off? ==>
        var released := Release(old(outputValues), id, 128 - 1);
        outputValues == released.0 && sent == old(sent) + released.1
        && syncSent == old(syncSent) + (if id == 0 && id in old(outputValues) then [[127 + syncChannel, 24, 0]] else [])
      ensures value.On? ==>
        var velocity := BlofeldVelocity(lastPos.ticks, velocities.values);
        var pressed := Press(old(outputValues), id, (channel, BLOFELD_DRUMS[id % 8], velocity), 144 - 1);
        outputValues == pressed.0 && sent == old(sent) + pressed.1
        && syncSent == old(syncSent) + (if id == 0 then [[143 + syncChannel, 24, velocity]] else [])
    {
      match value {
        case Off =>
          if id in outputValues {
            var (ch, note, _) := outputValues[id];
            sent := sent + [[128 - 1 + ch, note, 0]];
            outputValues := outputValues - {id};
            if id == 0 {
              syncSent := syncSent + [[128 - 1 + syncChannel, 24, 0]];
            }
          }
        case On(_) =>
          var baseVelocity := 100;
          var velocityPos := TruncRem(TruncDiv(lastPos.ticks, FromMeasure(1, 4).ticks), 8);
          var pos := Rem(lastPos, FromMeasure(1, 4));
          var velocity := baseVelocity;
          if pos.ticks == 0 && AsU32(velocityPos) in velocities.values {
            velocity := velocities.values[AsU32(velocityPos)];
          }
          var note := BLOFELD_DRUMS[id % |BLOFELD_DRUMS|];
          sent := sent + [[144 - 1 + channel, note, velocity]];
          if id == 0 {
            syncSent := syncSent + [[144 - 1 + syncChannel, 24, velocity]];
          }
          outputValues := outputValues[id := (channel, note, velocity)];
      }
    }
  }
}
