/** The device Twister: sixty-four knobs over four bank pages driving the
    mixer channels, the effects and the instruments' own parameters, with
    a knob looper that freezes without cueing. */
module TwisterDevices {
  import opened RustInt
  import opened Prelude
  import opened OutputValues
  import opened MidiTimes
  import opened LoopEvents
  import opened LoopRecorders
  import opened TwisterLoops

  datatype Control =
    | ChannelVolume(channel: nat)
    | ChannelReverb(channel: nat)
    | ChannelDelay(channel: nat)
    | ChannelFilter(channel: nat)
    | ChannelFilterLfoAmount(channel: nat)
    | ChannelDuck(channel: nat)
    | DuckRelease
    | DelayDivider
    | DelayFeedback
    | KickPitch
    | KickDecay
    | SamplerPitch
    | SamplerMod
    | Swing
    | LfoRate
    | LfoHold
    | LfoSkew
    | LfoOffset
    | Cv1
    | Cv2
    | Cv2LfoAmount
    | BassPitch
    | BassCutoff
    | BassWave
    | BassTune
    | BassFilterLfoAmount
    | SynthPitch
    | SynthTone
    | SynthRegistration
    | SynthMod
    | ExtPitch
    | ExtFilter
    | ExtFilterLfoAmount
    | NoControl

  /** The instrument controls of the fourth page, pair by pair; both
      sampler pairs drive the same sampler controls, and the last pair's
      second knob repeats the delay feedback. */
  const PAGE_D: seq<(Control, Control)> := [
    (KickPitch, KickDecay), (Cv1, Cv2), (SamplerPitch, SamplerMod), (SamplerPitch, SamplerMod),
    (BassPitch, BassWave), (SynthPitch, SynthMod), (ExtPitch, ExtFilter), (Swing, DelayFeedback)]

  /** `from_id`: the bank page is `id / 16`, the knob pair `(id % 16) / 2`,
      and the odd knob of a pair its second control. */
  function FromId(id: nat): (c: Control)
    ensures c == NoControl <==> id >= 64
  {
    var page := id / 16;
    var control := id % 2;
    var channel := (id % 16) / 2;
    if page == 0 then
      if control == 0 then ChannelVolume(channel) else ChannelFilter(channel)
    else if page == 1 then
      if channel == 7 then (if control == 0 then DelayDivider else DelayFeedback)
      else if control == 0 then ChannelReverb(channel) else ChannelDelay(channel)
    else if page == 2 then
      if channel == 0 && control == 0 then DuckRelease
      else if channel == 0 then LfoRate
      else if control == 0 then ChannelDuck(channel) else ChannelFilterLfoAmount(channel)
    else if page == 3 then
      if control == 0 then PAGE_D[channel].0 else PAGE_D[channel].1
    else NoControl
  }

  /** The first two pages are the mixer channels: volume and filter pairs,
      then reverb and delay pairs, with the delay's divider and feedback
      on the last pair of the second page; the third page starts with the
      duck release and LFO rate, then duck and filter LFO pairs; the
      fourth page follows `PAGE_D`. */
  lemma FromIdPages(id: nat)
    ensures id < 16 ==> FromId(id) == if id % 2 == 0 then ChannelVolume(id / 2) else ChannelFilter(id / 2)
    ensures 16 <= id < 30 ==>
      FromId(id) == if id % 2 == 0 then ChannelReverb((id - 16) / 2) else ChannelDelay((id - 16) / 2)
    ensures id == 30 ==> FromId(id) == DelayDivider
    ensures id == 31 ==> FromId(id) == DelayFeedback
    ensures 32 <= id < 48 ==>
      FromId(id) == if id == 32 then DuckRelease else if id == 33 then LfoRate
        else if id % 2 == 0 then ChannelDuck((id - 32) / 2) else ChannelFilterLfoAmount((id - 32) / 2)
    ensures 48 <= id < 64 ==>
      FromId(id) == if id % 2 == 0 then PAGE_D[(id - 48) / 2].0 else PAGE_D[(id - 48) / 2].1
  {
  }

  /** The knob `get_control_ids` keeps for a control: the last knob that
      decodes to it, when there is one. */
  function KnobOf(c: Control): Option<nat>
  {
    match c
    case ChannelVolume(ch) => if ch < 8 then Some(2 * ch) else None
    case ChannelFilter(ch) => if ch < 8 then Some(2 * ch + 1) else None
    case ChannelReverb(ch) => if ch < 7 then Some(16 + 2 * ch) else None
    case ChannelDelay(ch) => if ch < 7 then Some(17 + 2 * ch) else None
    case DelayDivider => Some(30)
    case DuckRelease => Some(32)
    case LfoRate => Some(33)
    case ChannelDuck(ch) => if 1 <= ch < 8 then Some(32 + 2 * ch) else None
    case ChannelFilterLfoAmount(ch) => if 1 <= ch < 8 then Some(33 + 2 * ch) else None
    case KickPitch => Some(48)
    case KickDecay => Some(49)
    case Cv1 => Some(50)
    case Cv2 => Some(51)
    case SamplerPitch => Some(54)
    case SamplerMod => Some(55)
    case BassPitch => Some(56)
    case BassWave => Some(57)
    case SynthPitch => Some(58)
    case SynthMod => Some(59)
    case ExtPitch => Some(60)
    case ExtFilter => Some(61)
    case Swing => Some(62)
    case DelayFeedback => Some(63)
    case _ => None
  }

  /** The knob that shares a knob's control and comes last: the second
      sampler pair stands for the first, and the last knob for the delay
      feedback knob of the second page. */
  function LastTwin(id: nat): nat
  {
    if id == 31 then 63 else if id == 52 || id == 53 then id + 2 else id
  }

  /** The knob of page `page`, pair `channel` and side `control` has
      those three as its digits. */
  lemma KnobDigits(page: nat, channel: nat, control: nat)
    requires channel < 8 && control < 2
    ensures var id := 16 * page + 2 * channel + control;
      id / 16 == page && id % 2 == control && (id % 16) / 2 == channel
  {
    var id := 16 * page + 2 * channel + control;
    EuclideanUnique(id, 16, page, 2 * channel + control);
    EuclideanUnique(id, 2, 8 * page + channel, control);
    EuclideanUnique(2 * channel + control, 2, channel, control);
  }

  /** Every knob decodes to a control whose kept knob is its last twin. */
  lemma KnobOfFromId(id: nat)
    requires id < 64
    ensures KnobOf(FromId(id)) == Some(LastTwin(id))
  {
    var page, channel, control := id / 16, (id % 16) / 2, id % 2;
    assert id == 16 * page + 2 * channel + control;
    if page < 3 {
      MixerKnob(page, channel, control);
    } else {
      InstrumentKnob(channel, control);
    }
  }

  /** `KnobOfFromId` on the three mixer pages. */
  lemma MixerKnob(page: nat, channel: nat, control: nat)
    requires page < 3 && channel < 8 && control < 2
    ensures var id := 16 * page + 2 * channel + control;
      KnobOf(FromId(id)) == Some(LastTwin(id))
  {
    KnobDigits(page, channel, control);
  }

  /** `KnobOfFromId` on the instrument page. */
  lemma InstrumentKnob(channel: nat, control: nat)
    requires channel < 8 && control < 2
    ensures var id := 48 + 2 * channel + control;
      KnobOf(FromId(id)) == Some(LastTwin(id))
  {
    KnobDigits(3, channel, control);
    if control == 0 {
      FirstKnobs(channel);
    } else {
      SecondKnobs(channel);
    }
  }

  /** The first control of each instrument pair keeps the pair's first
      knob, but for the second sampler pair, which stands for the first. */
  lemma FirstKnobs(channel: nat)
    requires channel < 8
    ensures KnobOf(PAGE_D[channel].0) == Some(LastTwin(48 + 2 * channel))
  {
  }

  /** The second control of each instrument pair keeps the pair's second
      knob, with the same exception. */
  lemma SecondKnobs(channel: nat)
    requires channel < 8
    ensures KnobOf(PAGE_D[channel].1) == Some(LastTwin(49 + 2 * channel))
  {
  }

  /** A control with a kept knob is what that knob decodes to. */
  lemma FromIdKnobOf(c: Control)
    requires KnobOf(c).Some?
    ensures KnobOf(c).value < 64 && FromId(KnobOf(c).value) == c
  {
    if c.ChannelVolume? || c.ChannelFilter? || c.ChannelReverb? || c.ChannelDelay?
      || c.ChannelDuck? || c.ChannelFilterLfoAmount? {
      ChannelKnobOf(c);
    } else {
      FixedKnobOf(c);
    }
  }

  /** `FromIdKnobOf` for the per-channel controls. */
  lemma ChannelKnobOf(c: Control)
    requires KnobOf(c).Some?
    requires c.ChannelVolume? || c.ChannelFilter? || c.ChannelReverb? || c.ChannelDelay?
      || c.ChannelDuck? || c.ChannelFilterLfoAmount?
    ensures KnobOf(c).value < 64 && FromId(KnobOf(c).value) == c
  {
    var ch := c.channel;
    var page := if c.ChannelVolume? || c.ChannelFilter? then 0 else if c.ChannelReverb? || c.ChannelDelay? then 1 else 2;
    var control := if c.ChannelVolume? || c.ChannelReverb? || c.ChannelDuck? then 0 else 1;
    assert KnobOf(c).value == 16 * page + 2 * ch + control;
    KnobDigits(page, ch, control);
  }

  /** `FromIdKnobOf` for the controls with one knob of their own. */
  lemma FixedKnobOf(c: Control)
    requires KnobOf(c).Some?
    requires !(c.ChannelVolume? || c.ChannelFilter? || c.ChannelReverb? || c.ChannelDelay?
      || c.ChannelDuck? || c.ChannelFilterLfoAmount?)
    ensures KnobOf(c).value < 64 && FromId(KnobOf(c).value) == c
  {
  }

  /** Unlike the mixer Twister's, this decoding is not one to one: the two
      sampler pairs share their controls and so do knobs 31 and 63; any
      other two knobs decode to different controls. */
  lemma SharedKnobs(a: nat, b: nat)
    requires a < 64 && b < 64
    ensures FromId(a) == FromId(b) <==> LastTwin(a) == LastTwin(b)
  {
    KnobOfFromId(a);
    KnobOfFromId(b);
    FromIdKnobOf(FromId(a));
    FromIdKnobOf(FromId(b));
  }

  /** `get_control_ids`: every control some knob decodes to, mapped to the
      last such knob. */
  method GetControlIds() returns (result: map<Control, nat>)
    ensures forall c :: c in result <==> KnobOf(c).Some?
    ensures forall c :: c in result ==> result[c] == KnobOf(c).value
  {
    result := map[];
    var id := 0;
    while id < 64
      invariant 0 <= id <= 64
      invariant forall c :: c in result ==> result[c] < id && FromId(result[c]) == c
      invariant forall j :: 0 <= j < id ==> FromId(j) in result && j <= result[FromId(j)]
    {
      var control := FromId(id);
      if control != NoControl {
        result := result[control := id];
      }
      id := id + 1;
    }
    LastKnobsKept(result);
  }

  /** A map from every decoded control to a knob decoding to it, never
      below any knob that decodes to the same control, holds exactly the
      kept knobs. */
  lemma LastKnobsKept(result: map<Control, nat>)
    requires forall c :: c in result ==> result[c] < 64 && FromId(result[c]) == c
    requires forall j :: 0 <= j < 64 ==> FromId(j) in result && j <= result[FromId(j)]
    ensures forall c :: c in result <==> KnobOf(c).Some?
    ensures forall c :: c in result ==> result[c] == KnobOf(c).value
  {
    forall c | KnobOf(c).Some?
      ensures c in result
    {
      FromIdKnobOf(c);
    }
    forall c | c in result
      ensures KnobOf(c).Some? && result[c] == KnobOf(c).value
    {
      KeptKnob(result, c);
    }
  }

  /** One control of such a map: its knob's last twin decodes to it too,
      so the knob is that twin. */
  lemma KeptKnob(result: map<Control, nat>, c: Control)
    requires c in result && result[c] < 64 && FromId(result[c]) == c
    requires forall j :: 0 <= j < 64 ==> FromId(j) in result && j <= result[FromId(j)]
    ensures KnobOf(c) == Some(result[c])
  {
    var r := result[c];
    KnobOfFromId(r);
    var twin := LastTwin(r);
    KnobOfFromId(twin);
    assert twin <= result[FromId(twin)];
  }

  /** Masking a byte with `0b0111_1111` keeps its remainder modulo 128. */
  lemma LowBitsMask(x: bv8)
    ensures x & 0x7F == x % 0x80
  {
  }

  /** `mask7`: the low seven bits of a byte, taken as its remainder
      modulo 128. */
  function Mask7(input: U8): (r: U8)
    ensures r < 128
    ensures input < 128 ==> r == input
    ensures input >= 128 ==> r == input - 128
  {
    input % 128
  }

  /** The integer half of `float_to_msb_lsb`: a 14-bit value split into
      its low and high seven bits (`as u8` keeps the low byte). */
  function MsbLsb(value: nat): (pair: (U8, U8))
    requires value < 0x1_0000
    ensures pair.0 < 128 && pair.1 < 128
    ensures value < 0x4000 ==> pair.1 * 128 + pair.0 == value
  {
    SevenBitHalves(value);
    (Mask7(value % 256), Mask7((value / 128) % 256))
  }

  /** A 14-bit value is its high seven bits times 128 plus its low seven
      bits, and the low byte's low seven bits are the value's. */
  lemma SevenBitHalves(value: nat)
    requires value < 0x1_0000
    ensures (value % 256) % 128 == value % 128
    ensures value < 0x4000 ==> (value / 128) % 256 == value / 128 < 128
    ensures (value / 128) * 128 + value % 128 == value
  {
    var q, r := value / 256, value % 256;
    assert value == 128 * (2 * q + r / 128) + r % 128;
    EuclideanUnique(value, 128, 2 * q + r / 128, r % 128);
    if value < 0x4000 {
      EuclideanUnique(value / 128, 256, 0, value / 128);
    }
  }

  /** The start value of a mixer control on any channel, or `None` for a
      control that is not per channel. */
  function ChannelStart(c: Control): Option<U8>
  {
    match c
    case ChannelVolume(_) => Some(100)
    case ChannelReverb(_) => Some(0)
    case ChannelDelay(_) => Some(0)
    case ChannelFilter(_) => Some(64)
    case ChannelFilterLfoAmount(_) => Some(64)
    case ChannelDuck(_) => Some(64)
    case _ => None
  }

  /** The start value of a control that is not per channel, or `None`
      for one the thread leaves unset. */
  function GlobalStart(c: Control): Option<U8>
  {
    match c
    case LfoRate => Some(64)
    case LfoSkew => Some(64)
    case DuckRelease => Some(64)
    case SamplerPitch => Some(64)
    case Cv1 => Some(64)
    case Cv2 => Some(0)
    case SynthPitch => Some(64)
    case DelayDivider => Some(115)
    case DelayFeedback => Some(64)
    case KickPitch => Some(64)
    case KickDecay => Some(64)
    case BassPitch => Some(64)
    case BassWave => Some(64)
    case ExtPitch => Some(64)
    case ExtFilter => Some(60)
    case Swing => Some(64)
    case _ => None
  }

  /** The value a control holds when the device Twister starts: the mixer
      values on channels 0 to 7, 115 for the delay divider, 60 for the
      external filter, 0 for the second CV, 64 for the other centred
      controls, and nothing for the rest. */
  function DeviceDefault(c: Control): Option<U8>
  {
    if ChannelStart(c).Some? then
      (if c.channel < 8 then ChannelStart(c) else None)
    else GlobalStart(c)
  }

  /** The start of the device Twister's thread: the mixer controls of each
      of the eight channels (the filter first set to 0, then to 64), then
      the global controls one by one. */
  method DeviceStartValues() returns (values: map<Control, U8>)
    ensures forall c :: c in values <==> DeviceDefault(c).Some?
    ensures forall c :: c in values ==> values[c] == DeviceDefault(c).value
  {
    values := map[];
    var channel := 0;
    while channel < 8
      invariant 0 <= channel <= 8
      invariant forall c :: c in values <==> ChannelStart(c).Some? && c.channel < channel
      invariant forall c :: c in values ==> values[c] == ChannelStart(c).value
    {
      values := values[ChannelVolume(channel) := 100][ChannelReverb(channel) := 0]
        [ChannelDelay(channel) := 0][ChannelFilter(channel) := 0][ChannelFilterLfoAmount(channel) := 64]
        [ChannelFilter(channel) := 64][ChannelDuck(channel) := 64];
      channel := channel + 1;
    }
    values := InsertGlobals(values);
  }

  /** The thread's inserts after the channel loop, one global control at a
      time; every other entry is kept. */
  method InsertGlobals(values: map<Control, U8>) returns (r: map<Control, U8>)
    ensures forall c :: c in r <==> c in values || GlobalStart(c).Some?
    ensures forall c :: c in r ==> r[c] == if GlobalStart(c).Some? then GlobalStart(c).value else values[c]
  {
    r := values[LfoRate := 64][LfoSkew := 64][DuckRelease := 64][SamplerPitch := 64]
      [Cv1 := 64][Cv2 := 0][SynthPitch := 64][DelayDivider := 115][DelayFeedback := 64]
      [KickPitch := 64][KickDecay := 64][BassPitch := 64][BassWave := 64]
      [ExtPitch := 64][ExtFilter := 60][Swing := 64];
  }

  /** Where an event comes from: the knobs and loops of this Twister, or
      another device mirrored onto a knob. */
  datatype DeviceSource = Internal | External

  /** The device Twister's message loop. */
  class DeviceTwister {
    const controlIds: map<Control, nat>
    const params: FreezeParams
    const recorder: LoopRecorder
    var lastPos: MidiTime
    var lastValues: map<Control, U8>
    var recordStartTimes: map<Control, MidiTime>
    var loops: map<Control, Loop>
    var currentBank: U8
    var frozen: bool
    var frozenValues: Option<map<Control, U8>>
    var frozenLoops: Option<map<Control, Loop>>
    ghost var queued: seq<Queued<Control, DeviceSource>>
    ghost var sent: seq<seq<int>>

    /** Every loop spans valid times, and a snapshot of values and loops
        exists exactly while frozen. */
    ghost predicate Valid()
      reads this, recorder
    {
      recorder.Valid() && MidiTimes.Valid(lastPos)
      && (forall c :: c in loops ==> ValidLoop(loops[c]))
      && (frozenLoops.Some? ==> forall c :: c in frozenLoops.value ==> ValidLoop(frozenLoops.value[c]))
      && (frozen <==> frozenValues.Some?)
      && (frozen <==> frozenLoops.Some?)
    }

    /** The loop starts with the knobs' default values. */
    constructor (controlIds: map<Control, nat>, params: FreezeParams, recorder: LoopRecorder, defaults: map<Control, U8>)
      requires recorder.Valid()
      ensures Valid()
      ensures this.controlIds == controlIds && this.params == params && this.recorder == recorder
      ensures lastPos == Zero() && lastValues == defaults && recordStartTimes == map[] && loops == map[]
      ensures currentBank == 0 && !frozen && frozenValues.None? && frozenLoops.None?
      ensures queued == [] && sent == []
    {
      this.controlIds := controlIds;
      this.params := params;
      this.recorder := recorder;
      lastPos := Zero();
      lastValues := defaults;
      recordStartTimes := map[];
      loops := map[];
      currentBank := 0;
      frozen := false;
      frozenValues := None;
      frozenLoops := None;
      queued := [];
      sent := [];
    }

    /** `LeftButton`/`RightButton`: either button freezes while held. */
    method Button(pressed: bool)
      modifies params`frozen
      ensures params.frozen == pressed
    {
      params.frozen := pressed;
    }

    /** `ControlChange`: a turn of a known knob whose loop is not playing
        drops the loop and queues a loop event at the current position;
        otherwise nothing happens. */
    method ControlChange(control: Control, value: OutputValue, source: DeviceSource)
      requires Valid()
      modifies this`loops, this`queued
      ensures Valid()
      ensures control in controlIds && Allowed(old(loops), control, lastPos) ==>
        loops == old(loops) - {control}
        && queued == old(queued) + [QueuedEvent(LoopEvent(value, lastPos, controlIds[control]), source)]
      ensures !(control in controlIds && Allowed(old(loops), control, lastPos)) ==>
        loops == old(loops) && queued == old(queued)
    {
      if control in controlIds {
        var id := controlIds[control];
        var allow := if control in loops then
          MidiTimes.Less(LoopEnd(loops[control]), Sub(lastPos, FromTicks(8)))
        else true;
        if allow {
          loops := loops - {control};
          queued := queued + [QueuedEvent(LoopEvent(value, lastPos, id), source)];
        }
      }
    }

    /** `Event`: every event sets the knob's value and is recorded; only
        this Twister's own events are sent on to the devices. */
    method HandleEvent(event: LoopEvent, source: DeviceSource)
      requires Valid()
      modifies this`lastValues, this`queued, recorder
      ensures Valid()
      ensures lastValues == old(lastValues)[FromId(event.id) := OutputValues.Value(event.value)]
      ensures queued == old(queued)
        + (if source == Internal then [QueuedSend(FromId(event.id))] else [])
        + [QueuedRefresh(FromId(event.id))]
      ensures recorder.perId.Keys == old(recorder.perId).Keys + {event.id}
      ensures event in recorder.perId[event.id]
      ensures forall id :: id in old(recorder.perId) && id != event.id ==>
        recorder.perId[id] == old(recorder.perId)[id]
    {
      var control := FromId(event.id);
      lastValues := lastValues[control := OutputValues.Value(event.value)];
      if source == Internal {
        queued := queued + [QueuedSend(control)];
      }
      queued := queued + [QueuedRefresh(control)];
      recorder.Add(event);
    }

    /** `Recording`: starting remembers the position; stopping a started
        recording turns it into the knob's loop (or drops the loop when too
        short); stopping one never started does nothing. */
    method Recording(control: Control, recording: bool)
      requires Valid()
      modifies this`recordStartTimes, this`loops
      ensures Valid()
      ensures recording ==> recordStartTimes == old(recordStartTimes)[control := lastPos] && loops == old(loops)
      ensures !recording ==> recordStartTimes == old(recordStartTimes) - {control}
      ensures !recording && control in old(recordStartTimes) ==>
        loops == EndRecording(old(loops), control, old(recordStartTimes)[control], lastPos)
      ensures !recording && control !in old(recordStartTimes) ==> loops == old(loops)
    {
      if recording {
        recordStartTimes := recordStartTimes[control := lastPos];
      } else if control in recordStartTimes {
        var start := recordStartTimes[control];
        recordStartTimes := recordStartTimes - {control};
        EndRecordingKeepsValid(loops, control, start, lastPos);
        loops := EndRecording(loops, control, start, lastPos);
      } else {
        recordStartTimes := recordStartTimes - {control};
      }
    }

    /** `Refresh`: a known knob is sent its value (zero before it has one)
        and whether it is looping; other controls send nothing. */
    method Refresh(control: Control)
      modifies this`sent
      ensures control in controlIds ==>
        sent == old(sent) + [[176, AsU8(controlIds[control]), if control in lastValues then lastValues[control] else 0],
                             [181, AsU8(controlIds[control]), if control in loops then 13 else 0]]
      ensures control !in controlIds ==> sent == old(sent)
    {
      if control in controlIds {
        var id := AsU8(controlIds[control]);
        var value := if control in lastValues then lastValues[control] else 0;
        sent := sent + [[176, id, value], [181, id, if control in loops then 13 else 0]];
      }
    }

    /** The freeze half of `Schedule`: entering a freeze snapshots the
        knobs' values and loops, and leaving it restores both. */
    method SyncFreeze()
      requires Valid()
      modifies this`loops, this`lastValues, this`frozen, this`frozenValues, this`frozenLoops
      ensures Valid() && frozen == params.frozen
      ensures old(frozen) == params.frozen ==>
        loops == old(loops) && lastValues == old(lastValues)
        && frozenValues == old(frozenValues) && frozenLoops == old(frozenLoops)
      ensures !old(frozen) && params.frozen ==>
        loops == old(loops) && lastValues == old(lastValues)
        && frozenValues == Some(old(lastValues)) && frozenLoops == Some(old(loops))
      ensures old(frozen) && !params.frozen ==>
        loops == old(frozenLoops).value && lastValues == old(frozenValues).value
    {
      if params.frozen != frozen {
        frozen := params.frozen;
        if frozen {
          frozenValues := Some(lastValues);
          frozenLoops := Some(loops);
        } else {
          if frozenLoops.Some? {
            loops := frozenLoops.value;
            frozenLoops := None;
          }
          if frozenValues.Some? {
            lastValues := frozenValues.value;
            frozenValues := None;
          }
        }
      }
    }

    /** The bookkeeping of `Schedule`: a pending automation reset clears the
        loops, a new bank is announced, the freeze follows the shared
        parameters, and the position advances. */
    method Schedule(pos: MidiTime)
      requires Valid() && MidiTimes.Valid(pos)
      modifies this`loops, this`lastValues, this`currentBank, this`frozen,
        this`frozenValues, this`frozenLoops, this`sent, this`lastPos, params`resetAutomation
      ensures Valid()
      ensures !params.resetAutomation && lastPos == pos
      ensures frozen == params.frozen && currentBank == params.bank
      ensures sent == old(sent) + if old(currentBank) != params.bank then [[179, params.bank, 127]] else []
      ensures var cleared := if old(params.resetAutomation) then map[] else old(loops);
        && (old(frozen) == params.frozen ==> loops == cleared && lastValues == old(lastValues))
        && (!old(frozen) && params.frozen ==>
              loops == cleared && lastValues == old(lastValues)
              && frozenValues == Some(old(lastValues)) && frozenLoops == Some(cleared))
        && (old(frozen) && !params.frozen ==>
              loops == old(frozenLoops).value && lastValues == old(frozenValues).value)
    {
      if params.resetAutomation {
        params.resetAutomation := false;
        loops := map[];
      }
      if currentBank != params.bank {
        sent := sent + [[179, params.bank, 127]];
        currentBank := params.bank;
      }
      SyncFreeze();
      lastPos := pos;
    }
  }

  /** The device Twister's thread as it starts: the knob ids, a recorder
      with an empty vector for every knob, and every control at its start
      value. */
  method NewDeviceTwister(params: FreezeParams) returns (twister: DeviceTwister)
    ensures fresh(twister) && fresh(twister.recorder) && twister.Valid()
    ensures twister.params == params && !twister.frozen && twister.currentBank == 0
    ensures forall c :: c in twister.controlIds <==> KnobOf(c).Some?
    ensures forall c :: c in twister.lastValues <==> DeviceDefault(c).Some?
    ensures forall c :: c in twister.lastValues ==> twister.lastValues[c] == DeviceDefault(c).value
    ensures twister.recorder.perId.Keys == twister.controlIds.Values
    ensures forall id :: id in twister.recorder.perId ==> twister.recorder.perId[id] == []
  {
    var controlIds := GetControlIds();
    var recorder := new LoopRecorder();
    AllocateKnobs(recorder, controlIds.Values);
    var values := DeviceStartValues();
    twister := new DeviceTwister(controlIds, params, recorder, values);
  }
}
