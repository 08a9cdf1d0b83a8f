/** The SP-404 mk2: one device instance per bank pair, chosen from the
    sampler itself by tapping a bank's pad 4 or 12 as many times as the
    instance's number plus one. */
module Sp404Mk2s {
  import opened RustInt
  import opened OutputValues
  import opened Prelude
  import opened NoteTriggers
  import opened Triggers

  /** The pad within a sub-bank each grid id plays. */
  const SUB_NOTES: seq<int> := [4, 5, 6, 7, 0, 1, 2]

  /** How long a tap sequence must be idle before it is applied, in
      milliseconds. */
  const SETTLE_MS: int := 200

  /** `OffsetPress`: the last tapped bank pad, when, and how many times in
      a row. Instants are milliseconds on the clock the caller supplies. */
  datatype OffsetPress = NoPress | Pressed(instant: int, value: U8, count: nat)

  /** `value_count`: how many times in a row `value` has been tapped. */
  function ValueCount(press: OffsetPress, value: U8): (count: nat)
    ensures count > 0 ==> press.Pressed? && press.value == value
    ensures press.Pressed? && press.value == value ==> count == press.count
  {
    if press.Pressed? && press.value == value then press.count else 0
  }

  /** `get_before`: the tapped value and count, only for a tap strictly
      before `instant`. */
  function GetBefore(press: OffsetPress, instant: int): (r: Option<(U8, nat)>)
    ensures r.Some? <==> press.Pressed? && press.instant < instant
    ensures r.Some? ==> r.value == (press.value, press.count)
  {
    if press.Pressed? && press.instant < instant then Some((press.value, press.count)) else None
  }

  /** A tap of `value` at `instant`: one more in the run when the same
      value was tapped last, otherwise the first of a new run. */
  function Tap(press: OffsetPress, value: U8, instant: int): OffsetPress
  {
    Pressed(instant, value, ValueCount(press, value) + 1)
  }

  /** A tap continues the run of the same value and restarts it for a new
      one. */
  lemma TapCounts(press: OffsetPress, value: U8, other: U8, instant: int)
    ensures ValueCount(Tap(press, value, instant), value) == ValueCount(press, value) + 1
    ensures other != value ==> ValueCount(Tap(press, value, instant), other) == 0
    ensures press.Pressed? && press.value != value ==> Tap(press, value, instant).count == 1
  {
  }

  /** `n` taps of the same value, starting from `press`. */
  function Taps(press: OffsetPress, value: U8, instants: seq<int>): OffsetPress
    decreases |instants|
  {
    if |instants| == 0 then press
    else Tap(Taps(press, value, instants[..|instants| - 1]), value, instants[|instants| - 1])
  }

  /** Tapping a pad `n` times from no press leaves a run of length `n`, so
      the instance numbered `n - 1` takes the bank. */
  lemma {:induction false} TapsCount(press: OffsetPress, value: U8, instants: seq<int>)
    ensures ValueCount(Taps(press, value, instants), value) == ValueCount(press, value) + |instants|
    decreases |instants|
  {
    if |instants| > 0 {
      var before := instants[..|instants| - 1];
      TapsCount(press, value, before);
      TapCounts(Taps(press, value, before), value, value, instants[|instants| - 1]);
    }
  }

  /** Every recorded run has at least one tap. */
  predicate RunCounted(press: OffsetPress)
  {
    press.Pressed? ==> press.count >= 1
  }

  /** The tap state shared with the input callback. */
  class PressCell {
    var press: OffsetPress

    constructor ()
      ensures press == NoPress
    {
      press := NoPress;
    }
  }

  /** The input callback: a note-on on channels 1 to 10 at pad 4 or pad 12
      of a bank (notes 39 and 47) taps that bank's value, twice the channel
      plus the sub-bank. Other messages change nothing. */
  method OnInput(cell: PressCell, message: seq<int>, now: int)
    requires |message| >= 1 && (144 <= message[0] < 154 ==> |message| >= 2)
    requires RunCounted(cell.press)
    modifies cell
    ensures RunCounted(cell.press)
    ensures !(144 <= message[0] < 154) ==> cell.press == old(cell.press)
    ensures 144 <= message[0] < 154 ==>
      var pad := AsU8(message[1] - 36);
      if pad == 3 || pad == 11 then
        var value := (message[0] - 144) * 2 + pad / 8;
        cell.press == Pressed(now, value, ValueCount(old(cell.press), value) + 1)
      else cell.press == old(cell.press)
  {
    if message[0] >= 144 && message[0] < 154 {
      var bank := message[0] - 144;
      var pad := AsU8(message[1] - 36);
      var subBank := pad / 8;
      var value := bank * 2 + subBank;
      if pad == 3 || pad == 11 {
        var count := ValueCount(cell.press, value) + 1;
        cell.press := Pressed(now, value, count);
      }
    }
  }

  /** `Sp404Mk2`: one instance of the sampler. */
  class Sp404Mk2 {
    const instance: nat
    const pressCell: PressCell
    const mapVelocity: U8 -> U8
    const sidechainId: Option<nat>
    const duck: DuckParams
    var offset: U8
    var updating: bool
    var outputValues: map<nat, Sounding>
    ghost var sent: seq<seq<int>>

    constructor (instance: nat, defaultOffset: U8, pressCell: PressCell, mapVelocity: U8 -> U8,
                 sidechainId: Option<nat>, duck: DuckParams)
      ensures this.instance == instance && this.pressCell == pressCell && this.mapVelocity == mapVelocity
      ensures this.sidechainId == sidechainId && this.duck == duck
      ensures offset == defaultOffset && !updating && outputValues == map[] && sent == []
    {
      this.instance := instance;
      this.pressCell := pressCell;
      this.mapVelocity := mapVelocity;
      this.sidechainId := sidechainId;
      this.duck := duck;
      offset := defaultOffset;
      updating := false;
      outputValues := map[];
      sent := [];
    }

    /** `on_tick`: a run of taps idle for 200 ms is consumed; if its length
        is this instance's number plus one, the instance takes the tapped
        bank and its lights go out for one tick. */
    method OnTick(now: int)
      requires RunCounted(pressCell.press)
      modifies this, pressCell
      ensures RunCounted(pressCell.press)
      ensures outputValues == old(outputValues) && sent == old(sent)
      ensures GetBefore(old(pressCell.press), now - SETTLE_MS).None? ==>
        pressCell.press == old(pressCell.press) && offset == old(offset) && !updating
      ensures GetBefore(old(pressCell.press), now - SETTLE_MS).Some? ==>
        var (value, count) := GetBefore(old(pressCell.press), now - SETTLE_MS).value;
        pressCell.press == NoPress
        && (if instance == count - 1 then offset == value && updating else offset == old(offset) && !updating)
    {
      updating := false;
      var settled := GetBefore(pressCell.press, now - SETTLE_MS);
      if settled.Some? {
        var (value, count) := settled.value;
        if instance == count - 1 {
          offset := value;
          updating := true;
        }
        pressCell.press := NoPress;
      }
    }

    /** `check_lit`: the lights stay off while the bank changes. */
    function CheckLit(id: nat): (lit: bool)
      reads this
      ensures lit == !updating
    {
      !updating
    }

    /** `trigger`: a press plays the id's pad of the current bank (channel
        `offset / 2`, sub-bank `offset % 2`) at the mapped velocity and, for
        the sidechain id, raises the duck flag; a release sends the
        note-off for what the id recorded. */
    method Trigger(id: nat, value: OutputValue)
      modifies this, duck
      ensures offset == old(offset) && updating == old(updating)
      ensures value.Off? ==>
        var released := Release(old(outputValues), id, 128);
        outputValues == released.0 && sent == old(sent) + released.1
        && duck.duckTriggered == old(duck.duckTriggered)
      ensures value.On? ==>
        var entry := (offset / 2, SUB_NOTES[id % 7] + 36 + 8 * (offset % 2), mapVelocity(value.velocity));
        var pressed := Press(old(outputValues), id, entry, 144);
        outputValues == pressed.0 && sent == old(sent) + pressed.1
        && duck.duckTriggered == (old(duck.duckTriggered) || sidechainId == Some(id))
    {
      match value {
        case Off =>
          if id in outputValues {
            var (channelOffset, note, _) := outputValues[id];
            sent := sent + [[128 + channelOffset, note, 0]];
            outputValues := outputValues - {id};
          }
        case On(velocity) =>
          var mapped := mapVelocity(velocity);
          var channelOffset := offset / 2;
          var subBank := offset % 2;
          var note := SUB_NOTES[id % |SUB_NOTES|] + 36 + 8 * subBank;
          sent := sent + [[144 + channelOffset, note, mapped]];
          if sidechainId.Some? && id == sidechainId.value {
            duck.duckTriggered := true;
          }
          outputValues := outputValues[id := (channelOffset, note, mapped)];
      }
    }
  }

  /** The seven grid ids play seven different pads of a sub-bank, the
      first sub-bank's pads 1-3 and 5-8 (notes 36-43) and the second's
      notes 44-51. */
  lemma Mk2NotesDistinct(offset: U8, i: nat, j: nat)
    requires i % 7 != j % 7
    ensures SUB_NOTES[i % 7] + 36 + 8 * (offset % 2) != SUB_NOTES[j % 7] + 36 + 8 * (offset % 2)
    ensures 36 + 8 * (offset % 2) <= SUB_NOTES[i % 7] + 36 + 8 * (offset % 2) < 44 + 8 * (offset % 2)
  {
  }
}
