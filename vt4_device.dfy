/** The VT-4 device chunk: a keyboard that plays through `MidiKeys` on
    channel 1 and, on every tick, keeps the VT-4's key on the major key that
    holds the shared scale. */
module Vt4Devices {
  import opened Prelude
  import opened RustInt
  import opened Chunk
  import opened OutputValues
  import opened Scales
  import opened Vt4Keys
  import MidiKeysDevices

  /** `VT4`: the inner keyboard and the key last sent. */
  class VT4 {
    const midiKeys: MidiKeysDevices.MidiKeys
    var lastKey: Option<int>
    /** Every key change sent, in order. */
    ghost var sent: seq<seq<int>>

    constructor (outputs: nat, scale: Scale, offset: Offset)
      ensures midiKeys.outputs == outputs && midiKeys.channel == 1
      ensures midiKeys.scale == scale && midiKeys.offset == offset
      ensures midiKeys.outputValues == map[] && midiKeys.sent == []
      ensures lastKey == None && sent == []
    {
      midiKeys := new MidiKeysDevices.MidiKeys(outputs, 1, scale, offset);
      lastKey := None;
      sent := [];
    }

    /** The VT-4 takes its events one at a time. */
    function Schedule(): ScheduleMode
    {
      Monophonic
    }

    /** `trigger`: handed to the keyboard unchanged; the key is untouched. */
    method Trigger(id: nat, value: OutputValue)
      modifies midiKeys
      ensures value.Off? && id in old(midiKeys.outputValues) ==>
        midiKeys.sent == old(midiKeys.sent) + MidiKeysDevices.Times(midiKeys.outputs, [[143 + midiKeys.channel, old(midiKeys.outputValues)[id].0, 0]])
        && midiKeys.outputValues == old(midiKeys.outputValues) - {id}
      ensures value.Off? && id !in old(midiKeys.outputValues) ==>
        midiKeys.sent == old(midiKeys.sent) && midiKeys.outputValues == old(midiKeys.outputValues)
      ensures value.On? ==>
        midiKeys.sent == old(midiKeys.sent) + MidiKeysDevices.Times(midiKeys.outputs, [[143 + midiKeys.channel, old(midiKeys.CurrentNote(id)), value.velocity]])
        && midiKeys.outputValues == old(midiKeys.outputValues)[id := (old(midiKeys.CurrentNote(id)), value.velocity)]
    {
      midiKeys.Trigger(id, value);
    }

    /** `on_tick`: the key of the current scale is sent as control change
        48 on channel 1 when it differs from the key last sent. */
    method OnTick()
      modifies this
      ensures lastKey == Some(KeyFor(midiKeys.scale.root, midiKeys.scale.scale))
      ensures old(lastKey) == lastKey ==> sent == old(sent)
      ensures old(lastKey) != lastKey ==> sent == old(sent) + [[176, 48, KeyFor(midiKeys.scale.root, midiKeys.scale.scale)]]
    {
      var scale := midiKeys.scale;
      var fromC := scale.root - 60;
      var baseKey := Modulo(fromC, 12);
      var offset := GetModeOffset(Modulo(scale.scale, 7));
      var key := AsU8(Modulo(baseKey - offset, 12));
      if Some(key) != lastKey {
        sent := sent + [[176, 48, key]];
        lastKey := Some(key);
      }
    }
  }
}
