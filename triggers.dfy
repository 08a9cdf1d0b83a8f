/** The one-shot trigger devices: each grid id plays a fixed note (or
    controller) on one channel, and its release silences what it played. */
module Triggers {
  import opened RustInt
  import opened OutputValues
  import opened Chunk
  import opened MidiTimes
  import opened Prelude
  import opened NoteTriggers

  /** The note each id plays on the Blackbox sampler. */
  const BLACKBOX_TRIGGERS: seq<int> := [48, 49, 50, 51, 44, 45, 46, 47]

  /** The TR-08 instrument note for each of the sixteen ids. */
  const TR08_MAP: seq<int> := [36, 38, 42, 46, 43, 39, 70, 49, 47, 37, 75, 56, 50, 64, 63, 62]

  /** The Volca Sample part (a zero-based channel) for each of the sixteen
      ids. */
  const VOLCA_CHANNELS: seq<int> := [0, 1, 8, 9, 2, 3, 4, 5, 6, 6, 6, 6, 7, 7, 7, 7]

  /** The pitch moves, by `id % 4`, of the ids from 8 up. */
  const VOLCA_PITCHES: seq<int> := [0, -14, 14, 18]

  /** `BlackboxSample`: eight sample pads on one channel. */
  class BlackboxSample {
    const channel: int
    var outputValues: map<nat, Sounding>
    ghost var sent: seq<seq<int>>

    constructor (channel: int)
      ensures this.channel == channel && outputValues == map[] && sent == []
    {
      this.channel := channel;
      outputValues := map[];
      sent := [];
    }

    /** Pads are held only while suppressing the loop's own events. */
    function Latching(): LatchMode { LatchSuppress }

    /** `trigger`: a press plays the pad's note at the incoming velocity; a
        release sends it again at velocity zero. */
    method Trigger(id: nat, value: OutputValue)
      modifies this
      ensures value.Off? ==>
        var released := Release(old(outputValues), id, 144 - 1);
        outputValues == released.0 && sent == old(sent) + released.1
      ensures value.On? ==>
        var pressed := Press(old(outputValues), id, (channel, BLACKBOX_TRIGGERS[id % 8], value.velocity), 144 - 1);
        outputValues == pressed.0 && sent == old(sent) + pressed.1
    {
      match value {
        case Off =>
          if id in outputValues {
            var (ch, note, _) := outputValues[id];
            sent := sent + [[144 - 1 + ch, note, 0]];
            outputValues := outputValues - {id};
          }
        case On(velocity) =>
          var note := BLACKBOX_TRIGGERS[id % |BLACKBOX_TRIGGERS|];
          sent := sent + [[144 - 1 + channel, note, velocity]];
          outputValues := outputValues[id := (channel, note, velocity)];
      }
    }
  }

  /** Where one trigger id is echoed: a MIDI channel and note on a second
      port. */
  datatype Sidechain = Sidechain(channel: int, triggerId: int, id: nat)

  /** `MidiTriggers`: ids mapped onto a list of notes, one of them echoed
      to the sidechain port. */
  class MidiTriggers {
    const channel: int
    const sidechain: Option<Sidechain>
    const triggerIds: seq<int>
    var lastPos: MidiTime
    var outputValues: map<nat, Sounding>
    ghost var sent: seq<seq<int>>
    /** Messages sent to the sidechain port. */
    ghost var sidechainSent: seq<seq<int>>

    constructor (channel: int, sidechain: Option<Sidechain>, triggerIds: seq<int>)
      ensures this.channel == channel && this.sidechain == sidechain && this.triggerIds == triggerIds
      ensures lastPos == Zero() && outputValues == map[] && sent == [] && sidechainSent == []
    {
      this.channel := channel;
      this.sidechain := sidechain;
      this.triggerIds := triggerIds;
      lastPos := Zero();
      outputValues := map[];
      sent := [];
      sidechainSent := [];
    }

    /** Whether `id` is the one echoed to the sidechain. */
    predicate Echoes(id: nat)
    {
      sidechain.Some? && sidechain.value.id == id
    }

    method OnTick(time: MidiTime)
      modifies this
      ensures lastPos == time
      ensures outputValues == old(outputValues) && sent == old(sent) && sidechainSent == old(sidechainSent)
    {
      lastPos := time;
    }

    /** `trigger`: a press plays `triggerIds[id % len]` (the list must not
        be empty); a release sends it at velocity zero. The sidechain id
        also sends a note-on, at velocity zero, on press, and a note-off on
        the release of a sounding id. */
    method Trigger(id: nat, value: OutputValue)
      requires value.On? ==> |triggerIds| > 0
      modifies this
      ensures lastPos == old(lastPos)
      ensures value.Off? ==>
        var released := Release(old(outputValues), id, 144 - 1);
        outputValues == released.0 && sent == old(sent) + released.1
        && sidechainSent == old(sidechainSent) +
          (if id in old(outputValues) && Echoes(id) then [[128 - 1 + sidechain.value.channel, sidechain.value.triggerId, 0]] else [])
      ensures value.On? ==>
        var pressed := Press(old(outputValues), id, (channel, triggerIds[id % |triggerIds|], value.velocity), 144 - 1);
        outputValues == pressed.0 && sent == old(sent) + pressed.1
        && sidechainSent == old(sidechainSent) +
          (if Echoes(id) then [[144 - 1 + sidechain.value.channel, sidechain.value.triggerId, 0]] else [])
    {
      match value {
        case Off =>
          if id in outputValues {
            var (ch, note, _) := outputValues[id];
            sent := sent + [[144 - 1 + ch, note, 0]];
            outputValues := outputValues - {id};
            if sidechain.Some? && id == sidechain.value.id {
              sidechainSent := sidechainSent + [[128 - 1 + sidechain.value.channel, sidechain.value.triggerId, 0]];
            }
          }
        case On(velocity) =>
          var note := triggerIds[id % |triggerIds|];
          sent := sent + [[144 - 1 + channel, note, velocity]];
          if sidechain.Some? && id == sidechain.value.id {
            sidechainSent := sidechainSent + [[144 - 1 + sidechain.value.channel, sidechain.value.triggerId, 0]];
          }
          outputValues := outputValues[id := (channel, note, velocity)];
      }
    }
  }

  /** The shared flag the ducking output reads. */
  class DuckParams {
    var duckTriggered: bool

    constructor ()
      ensures !duckTriggered
    {
      duckTriggered := false;
    }
  }

  /** `CcTriggers`: ids mapped onto controller numbers; the sidechain id
      raises the duck flag. */
  class CcTriggers {
    const channel: int
    /** The id that ducks, with the flag it raises. */
    const sidechainId: Option<nat>
    const duck: DuckParams
    const triggerIds: seq<int>
    /** The device's velocity curve; its definition is not part of this
        model. */
    const mapVelocity: U8 -> U8
    var lastPos: MidiTime
    var outputValues: map<nat, Sounding>
    ghost var sent: seq<seq<int>>

    constructor (channel: int, sidechainId: Option<nat>, duck: DuckParams, triggerIds: seq<int>, mapVelocity: U8 -> U8)
      ensures this.channel == channel && this.sidechainId == sidechainId && this.duck == duck
      ensures this.triggerIds == triggerIds && this.mapVelocity == mapVelocity
      ensures lastPos == Zero() && outputValues == map[] && sent == []
    {
      this.channel := channel;
      this.sidechainId := sidechainId;
      this.duck := duck;
      this.triggerIds := triggerIds;
      this.mapVelocity := mapVelocity;
      lastPos := Zero();
      outputValues := map[];
      sent := [];
    }

    method OnTick(time: MidiTime)
      modifies this
      ensures lastPos == time
      ensures outputValues == old(outputValues) && sent == old(sent)
    {
      lastPos := time;
    }

    /** `trigger`: a press sets controller `triggerIds[id % len]` to the
        mapped velocity and, for the sidechain id, raises the duck flag; a
        release sets the controller back to zero and leaves the flag. */
    method Trigger(id: nat, value: OutputValue)
      requires value.On? ==> |triggerIds| > 0
      modifies this, duck
      ensures lastPos == old(lastPos)
      ensures value.Off? ==>
        var released := Release(old(outputValues), id, 176 - 1);
        outputValues == released.0 && sent == old(sent) + released.1
        && duck.duckTriggered == old(duck.duckTriggered)
      ensures value.On? ==>
        var pressed := Press(old(outputValues), id, (channel, triggerIds[id % |triggerIds|], mapVelocity(value.velocity)), 176 - 1);
        outputValues == pressed.0 && sent == old(sent) + pressed.1
        && duck.duckTriggered == (old(duck.duckTriggered) || sidechainId == Some(id))
    {
      match value {
        case Off =>
          if id in outputValues {
            var (ch, cc, _) := outputValues[id];
            sent := sent + [[176 - 1 + ch, cc, 0]];
            outputValues := outputValues - {id};
          }
        case On(velocity) =>
          var cc := triggerIds[id % |triggerIds|];
          var mapped := mapVelocity(velocity);
          sent := sent + [[176 - 1 + channel, cc, mapped]];
          if sidechainId.Some? && id == sidechainId.value {
            duck.duckTriggered := true;
          }
          outputValues := outputValues[id := (channel, cc, mapped)];
      }
    }
  }

  /** `TR08`: sixteen instruments, one per id. */
  class TR08 {
    const channel: int
    var outputValues: map<nat, Sounding>
    ghost var sent: seq<seq<int>>

    constructor (channel: int)
      ensures this.channel == channel && outputValues == map[] && sent == []
    {
      this.channel := channel;
      outputValues := map[];
      sent := [];
    }

    /** `trigger`: a press plays `TR08_MAP[id]`, which exists only for the
        sixteen ids; a release sends a note-off. */
    method Trigger(id: nat, value: OutputValue)
      requires value.On? ==> id < 16
      modifies this
      ensures value.Off? ==>
        var released := Release(old(outputValues), id, 128 - 1);
        outputValues == released.0 && sent == old(sent) + released.1
      ensures value.On? ==>
        var pressed := Press(old(outputValues), id, (channel, TR08_MAP[id], value.velocity), 144 - 1);
        outputValues == pressed.0 && sent == old(sent) + pressed.1
    {
      match value {
        case Off =>
          if id in outputValues {
            var (ch, note, _) := outputValues[id];
            sent := sent + [[128 - 1 + ch, note, 0]];
            outputValues := outputValues - {id};
          }
        case On(velocity) =>
          var note := TR08_MAP[id];
          sent := sent + [[144 - 1 + channel, note, velocity]];
          outputValues := outputValues[id := (channel, note, velocity)];
      }
    }
  }

  /** Every TR-08 id plays its own instrument. */
  lemma TR08Distinct(i: nat, j: nat)
    requires i < 16 && j < 16 && i != j
    ensures TR08_MAP[i] != TR08_MAP[j]
  {
  }

  /** `VolcaSample::trigger`: the messages one trigger sends. Ids from 8 up
      first retune their part with controller 43, then every press plays
      the part at full velocity; a release sends nothing. */
  function VolcaMessages(id: nat, value: OutputValue): (messages: seq<seq<int>>)
    requires value.On? ==> id < 16
    ensures value.Off? ==> messages == []
    ensures value.On? ==>
      |messages| == (if id >= 8 then 2 else 1)
      && messages[|messages| - 1] == [144 + VOLCA_CHANNELS[id], 0, 127]
    ensures value.On? && id >= 8 ==>
      |messages[0]| == 3 && messages[0][0] == 176 + VOLCA_CHANNELS[id] && messages[0][1] == 43
      && 50 <= messages[0][2] <= 82 && (messages[0][2] == 64 <==> id % 4 == 0)
  {
    match value
    case Off => []
    case On(_) =>
      var channel := VOLCA_CHANNELS[id];
      var tune := if id >= 8 then [[176 + channel, 43, AsU8(64 + VOLCA_PITCHES[id % 4])]] else [];
      tune + [[144 + channel, 0, 127]]
  }

  /** The ids from 8 up share parts 6 and 7 four to a part, and the four
      ids of a part play it at four different pitches. */
  lemma VolcaSharedParts(i: nat, j: nat)
    requires 8 <= i < 16 && 8 <= j < 16 && i != j
    requires VOLCA_CHANNELS[i] == VOLCA_CHANNELS[j]
    ensures VolcaMessages(i, On(127))[0] != VolcaMessages(j, On(127))[0]
  {
  }

  /** `VolcaSample`: no state besides the port. */
  class VolcaSample {
    ghost var sent: seq<seq<int>>

    constructor ()
      ensures sent == []
    {
      sent := [];
    }

    method Trigger(id: nat, value: OutputValue)
      requires value.On? ==> id < 16
      modifies this
      ensures sent == old(sent) + VolcaMessages(id, value)
    {
      match value {
        case Off =>
        case On(_) =>
          var channel := VOLCA_CHANNELS[id];
          if id >= 8 {
            var pos := id % 4;
            var offset := if pos == 1 then -14 else if pos == 2 then 14 else if pos == 3 then 18 else 0;
            sent := sent + [[176 + channel, 43, AsU8(64 + offset)]];
          }
          sent := sent + [[144 + channel, 0, 127]];
      }
    }
  }
}
