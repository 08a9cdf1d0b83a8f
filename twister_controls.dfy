/** The mixer Twister: sixty-four knobs over four bank pages, decoded into
    channel, effect, modulator and global controls, driving the shared
    knob looper. */
module TwisterControls {
  import opened RustInt
  import opened Prelude
  import opened TwisterLoops
  import opened LoopRecorders

  /** The controls a knob can stand for. */
  datatype Control =
    | ChannelVolume(channel: nat)
    | ChannelFilter(channel: nat)
    | ChannelReverb(channel: nat)
    | ChannelDelay(channel: nat)
    | ChannelFilterLfoAmount(channel: nat)
    | ChannelDuck(channel: nat)
    | Modulator(index: nat)
    | DuckRelease
    | Swing
    | LfoRate
    | LfoSkew
    | NoControl

  /** `from_id`: the bank page is `id / 16`, the knob pair within it
      `(id % 16) / 2`, and the odd knob of a pair its second control. */
  function FromId(id: nat): (c: Control)
    ensures c == NoControl <==> id >= 64
    ensures id < 16 && id % 2 == 0 ==> c == ChannelVolume(id / 2)
    ensures id < 16 && id % 2 == 1 ==> c == ChannelFilter(id / 2)
    ensures 16 <= id < 30 ==> c == if id % 2 == 0 then ChannelReverb((id - 16) / 2) else ChannelDelay((id - 16) / 2)
    ensures id == 30 || id == 31 ==> c == Modulator(id - 16)
    ensures 48 <= id < 62 ==> c == Modulator(id - 48)
  {
    var page := id / 16;
    var control := id % 2;
    var channel := (id % 16) / 2;
    if page == 0 then
      if control == 0 then ChannelVolume(channel) else ChannelFilter(channel)
    else if page == 1 then
      if channel == 7 then Modulator(7 * 2 + control)
      else if control == 0 then ChannelReverb(channel) else ChannelDelay(channel)
    else if page == 2 then
      if channel == 0 && control == 0 then DuckRelease
      else if channel == 0 then LfoRate
      else if control == 0 then ChannelDuck(channel) else ChannelFilterLfoAmount(channel)
    else if page == 3 then
      if channel == 7 && control == 0 then Swing
      else if channel == 7 then LfoSkew
      else Modulator(channel * 2 + control)
    else NoControl
  }

  /** The knob a control sits on, when it has one: an independent inverse
      of `FromId`. */
  function KnobOf(c: Control): Option<nat>
  {
    match c
    case ChannelVolume(ch) => if ch < 8 then Some(2 * ch) else None
    case ChannelFilter(ch) => if ch < 8 then Some(2 * ch + 1) else None
    case ChannelReverb(ch) => if ch < 7 then Some(16 + 2 * ch) else None
    case ChannelDelay(ch) => if ch < 7 then Some(17 + 2 * ch) else None
    case ChannelDuck(ch) => if 1 <= ch < 8 then Some(32 + 2 * ch) else None
    case ChannelFilterLfoAmount(ch) => if 1 <= ch < 8 then Some(33 + 2 * ch) else None
    case Modulator(m) => if m < 14 then Some(48 + m) else if m < 16 then Some(16 + m) else None
    case DuckRelease => Some(32)
    case LfoRate => Some(33)
    case Swing => Some(62)
    case LfoSkew => Some(63)
    case NoControl => None
  }

  /** Every knob decodes to a control that sits on that knob. */
  lemma KnobOfFromId(id: nat)
    requires id < 64
    ensures KnobOf(FromId(id)) == Some(id)
  {
    var page := id / 16;
    var channel := (id % 16) / 2;
    assert id == 16 * page + 2 * channel + id % 2;
  }

  /** A control that sits on a knob is what that knob decodes to. */
  lemma FromIdKnobOf(c: Control)
    requires KnobOf(c).Some?
    ensures KnobOf(c).value < 64 && FromId(KnobOf(c).value) == c
  {
  }

  /** Different knobs decode to different controls. */
  lemma FromIdInjective(a: nat, b: nat)
    requires a < 64 && b < 64 && FromId(a) == FromId(b)
    ensures a == b
  {
    KnobOfFromId(a);
    KnobOfFromId(b);
  }

  /** `get_control_ids`: every knob's control, mapped back to its knob. */
  method GetControlIds() returns (result: map<Control, nat>)
    ensures forall c :: c in result <==> KnobOf(c).Some?
    ensures forall c :: c in result ==> result[c] < 64 && FromId(result[c]) == c
    ensures forall id :: id < 64 ==> FromId(id) in result && result[FromId(id)] == id
  {
    result := map[];
    var id := 0;
    while id < 64
      invariant 0 <= id <= 64
      invariant forall c :: c in result ==> result[c] < id && FromId(result[c]) == c
      invariant forall j :: 0 <= j < id ==> FromId(j) in result && result[FromId(j)] == j
    {
      var control := FromId(id);
      if control != NoControl {
        forall j | 0 <= j < id
          ensures FromId(j) != control
        {
          if FromId(j) == control {
            FromIdInjective(j, id);
          }
        }
        result := result[control := id];
      }
      id := id + 1;
    }
    forall c | KnobOf(c).Some?
      ensures c in result
    {
      FromIdKnobOf(c);
    }
    forall c | c in result
      ensures KnobOf(c).Some?
    {
      KnobOfFromId(result[c]);
    }
  }

  /** The start value of a per-channel control on any channel, or `None`
      for a control that is not per channel. */
  function ChannelDefault(c: Control): Option<U8>
  {
    match c
    case ChannelVolume(_) => Some(80)
    case ChannelReverb(_) => Some(0)
    case ChannelDelay(_) => Some(0)
    case ChannelFilterLfoAmount(_) => Some(64)
    case ChannelFilter(_) => Some(64)
    case ChannelDuck(_) => Some(20)
    case _ => None
  }

  /** The value a control holds when the Twister starts: the channel
      defaults on channels 0 to 7, 64 for swing, duck release and the LFO's
      rate and skew, the configured start value of modulator slot `i`
      (`modulators[i]`, `None` for an empty slot), and nothing otherwise. */
  function DefaultOf(c: Control, modulators: seq<Option<U8>>): Option<U8>
  {
    if ChannelDefault(c).Some? then
      (if c.channel < 8 then ChannelDefault(c) else None)
    else match c
      case Modulator(i) => if i < |modulators| then modulators[i] else None
      case DuckRelease => Some(64)
      case Swing => Some(64)
      case LfoRate => Some(64)
      case LfoSkew => Some(64)
      case _ => None
  }

  /** The start of the Twister's thread: six channel controls on each of
      the eight channels, the four global controls, then every configured
      modulator slot in order. */
  method StartValues(modulators: seq<Option<U8>>) returns (values: map<Control, U8>)
    ensures forall c :: c in values <==> DefaultOf(c, modulators).Some?
    ensures forall c :: c in values ==> values[c] == DefaultOf(c, modulators).value
  {
    values := map[];
    var channel := 0;
    while channel < 8
      invariant 0 <= channel <= 8
      invariant forall c :: c in values <==> ChannelDefault(c).Some? && c.channel < channel
      invariant forall c :: c in values ==> values[c] == ChannelDefault(c).value
    {
      values := values[ChannelVolume(channel) := 80][ChannelReverb(channel) := 0]
        [ChannelDelay(channel) := 0][ChannelFilterLfoAmount(channel) := 64]
        [ChannelFilter(channel) := 64][ChannelDuck(channel) := 20];
      channel := channel + 1;
    }
    values := values[Swing := 64][DuckRelease := 64][LfoRate := 64][LfoSkew := 64];
    var index := 0;
    while index < |modulators|
      invariant 0 <= index <= |modulators|
      invariant forall c :: c in values <==> DefaultOf(c, modulators[..index]).Some?
      invariant forall c :: c in values ==> values[c] == DefaultOf(c, modulators[..index]).value
    {
      if modulators[index].Some? {
        values := values[Modulator(index) := modulators[index].value];
      }
      index := index + 1;
    }
    assert modulators[..index] == modulators;
  }

  /** The mixer Twister's message loop: the shared looper over these
      controls, starting from the default values, with no page flip on
      leaving cue mode. */
  method NewTwister(params: FreezeParams, modulators: seq<Option<U8>>) returns (twister: KnobLooper<Control>)
    ensures fresh(twister) && fresh(twister.recorder) && twister.Valid()
    ensures twister.params == params && !twister.swapPagesOnUncue
    ensures forall id :: id < 64 ==> twister.fromId(id) == FromId(id)
    ensures forall c :: c in twister.controlIds <==> KnobOf(c).Some?
    ensures forall c :: c in twister.lastValues <==> DefaultOf(c, modulators).Some?
    ensures forall c :: c in twister.lastValues ==> twister.lastValues[c] == DefaultOf(c, modulators).value
    ensures twister.recorder.perId.Keys == twister.controlIds.Values
    ensures forall id :: id in twister.recorder.perId ==> twister.recorder.perId[id] == []
  {
    var controlIds := GetControlIds();
    var recorder := new LoopRecorder();
    AllocateKnobs(recorder, controlIds.Values);
    var values := StartValues(modulators);
    twister := new KnobLooper(FromId, controlIds, params, recorder, false, values);
  }
}
