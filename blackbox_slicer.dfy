/** The Blackbox slicer: each grid id plays one slice of a sliced sample,
    one slice at a time; in auto-trigger mode the device then steps through
    the following slices at a fixed rate for a fixed length. */
module BlackboxSlicers {
  import opened RustInt
  import opened OutputValues
  import opened Chunk
  import opened MidiTimes
  import opened Prelude
  import opened NoteTriggers

  /** `BlackboxSlicerMode`. */
  datatype SlicerMode = Direct | AutoTrigger(length: MidiTime, rate: MidiTime)

  /** `BlackboxSlicerBank`: one channel for all ids, or ids 0-3 on one
      channel and the rest on another. */
  datatype SlicerBank = Single(channel: U8) | Split(channelA: U8, channelB: U8)

  /** The modes the mode chooser offers: direct, two beats of sixteenths,
      one beat of thirty-seconds. */
  const MODES: seq<SlicerMode> := [
    Direct,
    AutoTrigger(FromBeats(2), FromMeasure(1, 4)),
    AutoTrigger(FromBeats(1), FromMeasure(1, 8))
  ]

  /** The banks the bank chooser offers. */
  const BANKS: seq<SlicerBank> := [Split(2, 3), Single(2), Single(3), Single(4), Single(5)]

  /** The velocity every slice is played at. */
  const SLICE_VELOCITY: int := 120

  /** A mode the device can divide by: an auto-trigger rate of at least a
      tick. */
  predicate ValidMode(mode: SlicerMode)
  {
    mode.AutoTrigger? ==> mode.rate.ticks > 0
  }

  /** How many slices apart two neighbouring ids start: the number of
      steps of an auto-trigger run, or one in direct mode. */
  function Increment(mode: SlicerMode): int
    requires ValidMode(mode)
  {
    if mode.AutoTrigger? then TruncDiv(mode.length.ticks, mode.rate.ticks) else 1
  }

  /** Every offered mode is valid, and each auto-trigger mode spaces the
      ids eight slices apart, exactly the slices one run steps through. */
  lemma ModesStepEight(i: nat)
    requires i < |MODES|
    ensures ValidMode(MODES[i])
    ensures Increment(MODES[i]) == (if i == 0 then 1 else 8)
    ensures i > 0 ==> Increment(MODES[i]) * MODES[i].rate.ticks == MODES[i].length.ticks
  {
    if i > 0 {
      TruncNonNegative(MODES[i].length.ticks, MODES[i].rate.ticks);
    }
  }

  /** The slice number an id starts at, as the source computes it: the
      `u32` product cast to `u8`, added to 36 in `u8` and taken modulo
      128. */
  function SliceNote(index: nat, increment: int): (note: int)
    ensures 0 <= note < 128
  {
    NoteOfSlice(AsU32(index * AsU32(increment)))
  }

  /** Slice `slice` counted from note 36, with the source's `u8` cast and
      addition and its `% 128`. */
  function NoteOfSlice(slice: nat): (note: int)
    ensures 0 <= note < 128
    ensures slice <= 91 ==> note == 36 + slice
  {
    AsU8(36 + AsU8(slice)) % 128
  }

  /** The `u32` product is the plain product while it stays small. */
  lemma SmallProduct(index: nat, increment: nat)
    requires index * increment <= 91
    ensures AsU32(index * AsU32(increment)) == index * increment
  {
    if index > 0 {
      assert increment <= index * increment;
      assert AsU32(increment) == increment;
    }
  }

  /** The channel and note an id plays in a bank. */
  function SliceOf(bank: SlicerBank, id: nat, increment: int): (r: (int, int))
    ensures 0 <= r.1 < 128
    ensures bank.Single? ==> r == (bank.channel, SliceNote(id, increment))
    ensures bank.Split? ==> r.1 == SliceNote(if id < 4 then id else id - 4, increment)
    ensures bank.Split? && bank.channelA != bank.channelB ==> (r.0 == bank.channelA <==> id < 4)
  {
    match bank
    case Single(channel) => (channel, SliceNote(id, increment))
    case Split(a, b) => if id < 4 then (a, SliceNote(id, increment)) else (b, SliceNote(id - 4, increment))
  }

  /** While nothing wraps, an id's slice is 36 plus the id times the
      increment, so different ids play different slices. */
  lemma SliceNoteExact(index: nat, increment: nat)
    requires index * increment <= 91
    ensures SliceNote(index, increment) == 36 + index * increment
  {
    SmallProduct(index, increment);
  }

  /** The auto-trigger step one tick performs: in an auto-trigger mode,
      with a slice sounding since `triggerAt`, on every multiple of the
      rate before the run's length the slice is stopped and the next one
      (never past 127) played; at the run's length the slice is stopped.
      Returns the new sounding slice and the messages. */
  function AutoStep(mode: SlicerMode, triggerAt: Option<MidiTime>, lastValue: Option<Sounding>, time: MidiTime): (r: (Option<Sounding>, seq<seq<int>>))
    requires ValidMode(mode)
    ensures mode.Direct? || triggerAt.None? || lastValue.None? ==> r == (lastValue, [])
    ensures r.0.Some? <==> lastValue.Some?
    ensures |r.1| <= 2
  {
    if mode.AutoTrigger? && triggerAt.Some? && lastValue.Some? then
      var (channel, note, velocity) := lastValue.value;
      var triggerPos := Sub(time, triggerAt.value);
      if MidiTimes.Less(triggerPos, mode.length) then
        if Rem(triggerPos, mode.rate) == Zero() then
          var next := if note < 127 then note + 1 else note;
          (Some((channel, next, velocity)), [[144 - 1 + channel, note, 0], [144 - 1 + channel, next, velocity]])
        else (lastValue, [])
      else if triggerPos == mode.length then (lastValue, [[144 - 1 + channel, note, 0]])
      else (lastValue, [])
    else (lastValue, [])
  }

  /** A step moves the sounding slice up by at most one, never past 127,
      on the same channel; every message it sends is for the slice it
      stops or the one it starts; in direct mode it does nothing. */
  lemma AutoStepAdvances(mode: SlicerMode, triggerAt: Option<MidiTime>, channel: int, note: int, velocity: int, time: MidiTime)
    requires ValidMode(mode) && note <= 127
    ensures var (next, messages) := AutoStep(mode, triggerAt, Some((channel, note, velocity)), time);
      next.Some? && next.value.0 == channel && next.value.2 == velocity
      && note <= next.value.1 <= 127 && next.value.1 <= note + 1
      && |messages| <= 2
      && (|messages| > 0 ==> messages[0] == [143 + channel, note, 0])
      && (|messages| == 2 ==> messages[1] == [143 + channel, next.value.1, velocity])
      && (mode.Direct? ==> next.value.1 == note && messages == [])
  {
  }

  /** Before the run's end, a step sounds a new slice exactly on the
      multiples of the rate after the trigger. */
  lemma AutoStepOnRate(length: MidiTime, rate: MidiTime, at: MidiTime, channel: int, note: int, velocity: int, time: MidiTime)
    requires rate.ticks > 0 && note < 127
    requires MidiTimes.Less(Sub(time, at), length)
    ensures AutoStep(AutoTrigger(length, rate), Some(at), Some((channel, note, velocity)), time).0 == Some((channel, note + 1, velocity))
        <==> Sub(time, at).subTicks == 0 && Sub(time, at).ticks % rate.ticks == 0
  {
  }

  /** The mode shared with the mode chooser. */
  class ModeCell {
    var mode: SlicerMode

    constructor ()
      ensures mode == MODES[0]
    {
      mode := MODES[0];
    }
  }

  /** The bank shared with the bank chooser. */
  class BankCell {
    var bank: SlicerBank

    constructor ()
      ensures bank == BANKS[0]
    {
      bank := BANKS[0];
    }
  }

  /** `BlackboxSlicer`. */
  class BlackboxSlicer {
    const modeCell: ModeCell
    const bankCell: BankCell
    /** The slice sounding. */
    var lastValue: Option<Sounding>
    /** Where the sounding slice was triggered. */
    var triggerAt: Option<MidiTime>
    var lastPos: MidiTime
    ghost var sent: seq<seq<int>>

    constructor (modeCell: ModeCell, bankCell: BankCell)
      ensures this.modeCell == modeCell && this.bankCell == bankCell
      ensures lastValue == None && triggerAt == None && lastPos == Zero() && sent == []
    {
      this.modeCell := modeCell;
      this.bankCell := bankCell;
      lastValue := None;
      triggerAt := None;
      lastPos := Zero();
      sent := [];
    }

    function Schedule(): ScheduleMode { Percussion }

    /** `trigger`: a press stops the slice sounding, plays the id's slice
        at velocity 120 and starts a run from the current position; a
        release does nothing. */
    method Trigger(id: nat, value: OutputValue)
      requires ValidMode(modeCell.mode)
      modifies this
      ensures lastPos == old(lastPos)
      ensures value.Off? ==> lastValue == old(lastValue) && triggerAt == old(triggerAt) && sent == old(sent)
      ensures value.On? ==>
        var (channel, note) := SliceOf(bankCell.bank, id, Increment(modeCell.mode));
        var stop := if old(lastValue).Some? then [[143 + old(lastValue).value.0, old(lastValue).value.1, 0]] else [];
        lastValue == Some((channel, note, SLICE_VELOCITY)) && triggerAt == Some(lastPos)
        && sent == old(sent) + stop + [[143 + channel, note, SLICE_VELOCITY]]
    {
      match value {
        case Off =>
        case On(_) =>
          var velocity := SLICE_VELOCITY;
          var mode := modeCell.mode;
          var increment := if mode.AutoTrigger? then TruncDiv(mode.length.ticks, mode.rate.ticks) else 1;
          var channel, note;
          match bankCell.bank {
            case Single(ch) =>
              channel, note := ch, AsU8(36 + AsU8(AsU32(id * AsU32(increment)))) % 128;
            case Split(a, b) =>
              if id < 4 {
                channel, note := a, AsU8(36 + AsU8(AsU32(id * AsU32(increment)))) % 128;
              } else {
                channel, note := b, AsU8(36 + AsU8(AsU32((id - 4) * AsU32(increment)))) % 128;
              }
          }
          if lastValue.Some? {
            var (previousChannel, previousNote, _) := lastValue.value;
            sent := sent + [[144 - 1 + previousChannel, previousNote, 0]];
          }
          lastValue := Some((channel, note, velocity));
          triggerAt := Some(lastPos);
          sent := sent + [[144 - 1 + channel, note, velocity]];
      }
    }

    /** `on_tick`: records the position and performs the auto-trigger
        step. */
    method OnTick(time: MidiTime)
      requires ValidMode(modeCell.mode)
      modifies this
      ensures lastPos == time && triggerAt == old(triggerAt)
      ensures var (next, messages) := AutoStep(modeCell.mode, old(triggerAt), old(lastValue), time);
        lastValue == next && sent == old(sent) + messages
    {
      var mode := modeCell.mode;
      lastPos := time;
      if mode.AutoTrigger? && triggerAt.Some? && lastValue.Some? {
        var (channel, note, velocity) := lastValue.value;
        var triggerPos := Sub(time, triggerAt.value);
        if MidiTimes.Less(triggerPos, mode.length) {
          var phase := Rem(triggerPos, mode.rate);
          if phase == Zero() {
            sent := sent + [[144 - 1 + channel, note, 0]];
            var next := note;
            if next < 127 {
              next := next + 1;
            }
            sent := sent + [[144 - 1 + channel, next, velocity]];
            lastValue := Some((channel, next, velocity));
          }
        } else if triggerPos == mode.length {
          sent := sent + [[144 - 1 + channel, note, 0]];
        }
      }
    }
  }

  /** `BlackboxSlicerModeChooser`: a press stores the mode of its id. */
  class ModeChooser {
    const cell: ModeCell

    constructor (cell: ModeCell)
      ensures this.cell == cell
    {
      this.cell := cell;
    }

    function Latching(): LatchMode { LatchSingle }

    method Trigger(id: nat, value: OutputValue)
      modifies cell
      ensures value.On? ==> cell.mode == MODES[id % 3] && ValidMode(cell.mode)
      ensures value.Off? ==> cell.mode == old(cell.mode)
    {
      match value {
        case Off =>
        case On(_) =>
          ModesStepEight(id % |MODES|);
          cell.mode := MODES[id % |MODES|];
      }
    }
  }

  /** `BlackboxSlicerBankChooser`: a press stores the bank of its id. */
  class BankChooser {
    const cell: BankCell

    constructor (cell: BankCell)
      ensures this.cell == cell
    {
      this.cell := cell;
    }

    function Latching(): LatchMode { LatchSingle }

    method Trigger(id: nat, value: OutputValue)
      modifies cell
      ensures value.On? ==> cell.bank == BANKS[id % 5]
      ensures value.Off? ==> cell.bank == old(cell.bank)
    {
      match value {
        case Off =>
        case On(_) =>
          cell.bank := BANKS[id % |BANKS|];
      }
    }
  }
}
