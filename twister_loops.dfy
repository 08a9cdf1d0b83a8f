/** The knob automation looper that the two Twister controllers share. A
    knob turn becomes a loop event; ending a recording gives the knob a
    loop of its own automation, which is replayed until the knob is turned
    again; the Left/Right buttons freeze the knobs (keeping a snapshot of
    their values and loops) and cue values that are applied when the
    freeze ends. */
module TwisterLoops {
  import opened RustInt
  import opened Prelude
  import opened OutputValues
  import opened MidiTimes
  import opened LoopEvents
  import opened LoopRecorders

  /** `Loop`: the span of a knob's recorded automation. */
  datatype Loop = Loop(offset: MidiTime, length: MidiTime)

  predicate ValidLoop(l: Loop)
  {
    MidiTimes.Valid(l.offset) && MidiTimes.Valid(l.length)
  }

  /** Where the loop's recorded pass ends. */
  function LoopEnd(l: Loop): (end: MidiTime)
    requires ValidLoop(l)
    ensures MidiTimes.Valid(end) && Total(end) == Total(l.offset) + Total(l.length)
  {
    Add(l.offset, l.length)
  }

  /** Where a knob event comes from: the knob itself, the knob's loop, or
      another device mirrored onto the knob. */
  datatype EventSource = User | Looped | External

  /** The messages a Twister queues to its own loop; `S` is where an
      event came from. */
  datatype Queued<C, S> = QueuedEvent(event: LoopEvent, source: S) | QueuedSend(control: C) | QueuedRefresh(control: C)

  /** What a message from the knobs asks for. */
  datatype KnobInput<C> =
    | Turn(control: C, value: U8)
    | RecordingInput(control: C, recording: bool)
    | BankInput(bank: U8)
    | LeftInput(pressed: bool)
    | RightInput(pressed: bool)

  /** The push buttons on the left and right of each bank page. */
  const LEFT_BUTTONS: set<int> := {10, 16, 22, 28}
  const RIGHT_BUTTONS: set<int> := {13, 19, 25, 31}

  /** The input callback: a knob turn on channel 1, a knob push on
      channel 2, and on channel 4 a bank page pick or a side button; any
      other message is ignored. */
  function Decode<C>(message: seq<U8>, fromId: nat -> C): (input: Option<KnobInput<C>>)
    requires |message| >= 2 && (message[0] in {176, 177, 179} ==> |message| >= 3)
    ensures message[0] !in {176, 177, 179} ==> input.None?
    ensures message[0] == 176 <==> input.Some? && input.value.Turn?
    ensures message[0] == 176 ==> input == Some(Turn(fromId(message[1]), message[2]))
    ensures message[0] == 177 ==> input == Some(RecordingInput(fromId(message[1]), message[2] > 0))
    ensures input.Some? && input.value.BankInput? <==>
      message[0] == 179 && message[1] < 4 && message[2] == 127
    ensures input.Some? && input.value.BankInput? ==> input.value.bank == message[1]
    ensures input.Some? && input.value.LeftInput? <==> message[0] == 179 && message[1] in LEFT_BUTTONS
    ensures input.Some? && input.value.RightInput? <==> message[0] == 179 && message[1] in RIGHT_BUTTONS
    ensures input.Some? && (input.value.LeftInput? || input.value.RightInput?) ==>
      (input.value.pressed <==> message[2] > 0)
  {
    var control := fromId(message[1]);
    if message[0] == 176 then Some(Turn(control, message[2]))
    else if message[0] == 177 then Some(RecordingInput(control, message[2] > 0))
    else if message[0] == 179 && message[1] < 4 && message[2] == 127 then Some(BankInput(message[1]))
    else if message[0] == 179 && message[1] in LEFT_BUTTONS then Some(LeftInput(message[2] > 0))
    else if message[0] == 179 && message[1] in RIGHT_BUTTONS then Some(RightInput(message[2] > 0))
    else None
  }

  /** The `ControlChange` guard: a knob without a loop always records; a
      knob with a loop records only once the loop ended more than eight
      ticks before the current position. */
  predicate Allowed<C(==)>(loops: map<C, Loop>, control: C, lastPos: MidiTime)
    requires control in loops ==> ValidLoop(loops[control])
    ensures control !in loops ==> Allowed(loops, control, lastPos)
    ensures Allowed(loops, control, lastPos) && control in loops ==>
      LoopEnd(loops[control]).ticks <= lastPos.ticks - 8
  {
    control !in loops || MidiTimes.Less(LoopEnd(loops[control]), Sub(lastPos, FromTicks(8)))
  }

  /** The guard, stated on the times it compares: the loop's end lies more
      than eight ticks before `lastPos`. */
  lemma AllowedMeansLoopEnded<C>(loops: map<C, Loop>, control: C, lastPos: MidiTime)
    requires control in loops && ValidLoop(loops[control]) && MidiTimes.Valid(lastPos)
    ensures Allowed(loops, control, lastPos) <==>
      Total(loops[control].offset) + Total(loops[control].length) + 8 * SUB_TICKS < Total(lastPos)
  {
    LessMatchesTotal(LoopEnd(loops[control]), Sub(lastPos, FromTicks(8)));
  }

  /** The loops after a recording that started at `start` ends at
      `lastPos`: a quantised length under sixteen ticks drops the knob's
      loop, a longer one becomes the loop that ends now. */
  function EndRecording<C(==)>(loops: map<C, Loop>, control: C, start: MidiTime, lastPos: MidiTime): (after: map<C, Loop>)
    ensures after - {control} == loops - {control}
    ensures control in after <==> QuantizeLength(Sub(lastPos, start)).ticks >= 16
    ensures control in after ==> after[control].length == QuantizeLength(Sub(lastPos, start))
  {
    var length := QuantizeLength(Sub(lastPos, start));
    if MidiTimes.Less(length, FromTicks(16)) then loops - {control}
    else loops[control := Loop(Sub(lastPos, length), length)]
  }

  /** Ending a recording keeps a loop exactly when the quantised length is
      at least sixteen ticks; the loop kept has that length and ends at
      `lastPos`, and no other knob's loop changes. */
  lemma RecordedLoopEndsNow<C>(loops: map<C, Loop>, control: C, start: MidiTime, lastPos: MidiTime)
    requires MidiTimes.Valid(lastPos)
    ensures var length := QuantizeLength(Sub(lastPos, start));
      var after := EndRecording(loops, control, start, lastPos);
      (control in after <==> length.ticks >= 16)
      && (control in after ==>
            after[control].length == length && ValidLoop(after[control]) && LoopEnd(after[control]) == lastPos)
      && after - {control} == loops - {control}
  {
    var length := QuantizeLength(Sub(lastPos, start));
    var after := EndRecording(loops, control, start, lastPos);
    if length.ticks >= 16 {
      AddUndoesSub(lastPos, length);
      assert after - {control} == loops - {control};
    }
  }

  /** Ending a recording keeps every loop spanning valid times. */
  lemma EndRecordingKeepsValid<C>(loops: map<C, Loop>, control: C, start: MidiTime, lastPos: MidiTime)
    requires MidiTimes.Valid(lastPos)
    requires forall c :: c in loops ==> ValidLoop(loops[c])
    ensures var after := EndRecording(loops, control, start, lastPos);
      forall c :: c in after ==> ValidLoop(after[c])
  {
    var after := EndRecording(loops, control, start, lastPos);
    RecordedLoopEndsNow(loops, control, start, lastPos);
    forall c | c in after
      ensures ValidLoop(after[c])
    {
      if c != control {
        assert c in after - {control};
        assert (after - {control})[c] == (loops - {control})[c];
      }
    }
  }

  /** The Left/Right button rule, giving the new `(frozen, cueing)`. A
      press leaves cueing, enters it when frozen, and otherwise freezes; a
      release unfreezes unless cued values are held. */
  function ButtonStep(frozen: bool, cueing: bool, pressed: bool, holdingCued: bool): (after: (bool, bool))
    ensures !pressed ==> after.1 == cueing && (after.0 <==> frozen && holdingCued)
    ensures pressed ==> (after.0 <==> frozen || !cueing) && (after.1 <==> frozen && !cueing)
  {
    if pressed then
      if cueing then (frozen, false)
      else if frozen then (frozen, true)
      else (true, cueing)
    else if !holdingCued then (false, cueing)
    else (frozen, cueing)
  }

  /** Three presses from the unfrozen state freeze, cue, and leave the cue
      while staying frozen. */
  lemma PressesCycle(holdingCued: bool)
    ensures ButtonStep(false, false, true, holdingCued) == (true, false)
    ensures ButtonStep(true, false, true, holdingCued) == (true, true)
    ensures ButtonStep(true, true, true, holdingCued) == (true, false)
  {
  }

  /** The start-up loop over the knobs: every knob id gets a recorder
      vector of capacity 50000, in any order; existing vectors are kept. */
  method AllocateKnobs(recorder: LoopRecorder, ids: set<nat>)
    requires recorder.Valid()
    modifies recorder
    ensures recorder.Valid()
    ensures recorder.perId.Keys == old(recorder.perId.Keys) + ids
    ensures forall id :: id in recorder.perId ==>
      recorder.perId[id] == if id in old(recorder.perId) then old(recorder.perId)[id] else []
  {
    var remaining := ids;
    while remaining != {}
      invariant remaining <= ids
      invariant recorder.Valid()
      invariant recorder.perId.Keys == old(recorder.perId.Keys) + (ids - remaining)
      invariant forall id :: id in recorder.perId ==>
        recorder.perId[id] == if id in old(recorder.perId) then old(recorder.perId)[id] else []
      decreases remaining
    {
      var id :| id in remaining;
      recorder.Allocate(id, 50000);
      remaining := remaining - {id};
    }
  }

  /** The shared `LoopGridParams` fields the knobs read and write. */
  class FreezeParams {
    var frozen: bool
    var cueing: bool
    var bank: U8
    var resetAutomation: bool

    constructor (frozen: bool, cueing: bool, bank: U8)
      ensures this.frozen == frozen && this.cueing == cueing && this.bank == bank
      ensures !resetAutomation
    {
      this.frozen := frozen;
      this.cueing := cueing;
      this.bank := bank;
      resetAutomation := false;
    }
  }

  /** The state of a controller's message loop, for any set of knob
      controls `C`. `fromId` decodes an event id and `controlIds` gives
      each control its knob id. */
  class KnobLooper<C(==)> {
    const fromId: nat -> C
    const controlIds: map<C, nat>
    const params: FreezeParams
    const recorder: LoopRecorder
    /** Whether leaving cue mode flips the bank page away and back to
        clear stale animations. */
    const swapPagesOnUncue: bool
    var lastPos: MidiTime
    var lastValues: map<C, U8>
    var recordStartTimes: map<C, MidiTime>
    var loops: map<C, Loop>
    var currentBank: U8
    var frozen: bool
    var cueing: bool
    var frozenValues: Option<map<C, U8>>
    var frozenLoops: Option<map<C, Loop>>
    var cuedValues: Option<map<C, U8>>
    /** The messages queued to the loop itself, in order. */
    ghost var queued: seq<Queued<C, EventSource>>
    /** The messages sent to the knobs, in order. */
    ghost var sent: seq<seq<int>>

    /** Every loop spans valid times, and a snapshot of values and loops
        exists exactly while frozen. */
    ghost predicate Valid()
      reads this, recorder
    {
      recorder.Valid() && MidiTimes.Valid(lastPos)
      && (forall c :: c in loops ==> ValidLoop(loops[c]))
      && (frozenLoops.Some? ==> forall c :: c in frozenLoops.value ==> ValidLoop(frozenLoops.value[c]))
      && (frozen <==> frozenValues.Some?)
      && (frozen <==> frozenLoops.Some?)
    }

    constructor (fromId: nat -> C, controlIds: map<C, nat>, params: FreezeParams, recorder: LoopRecorder, swapPagesOnUncue: bool, initialValues: map<C, U8>)
      requires recorder.Valid()
      ensures Valid()
      ensures this.fromId == fromId && this.controlIds == controlIds && this.params == params
      ensures this.recorder == recorder && this.swapPagesOnUncue == swapPagesOnUncue
      ensures lastPos == Zero() && lastValues == initialValues && recordStartTimes == map[] && loops == map[]
      ensures currentBank == 0 && !frozen && !cueing
      ensures frozenValues.None? && frozenLoops.None? && cuedValues.None?
      ensures queued == [] && sent == []
    {
      this.fromId := fromId;
      this.controlIds := controlIds;
      this.params := params;
      this.recorder := recorder;
      this.swapPagesOnUncue := swapPagesOnUncue;
      lastPos := Zero();
      lastValues := initialValues;
      recordStartTimes := map[];
      loops := map[];
      currentBank := 0;
      frozen := false;
      cueing := false;
      frozenValues := None;
      frozenLoops := None;
      cuedValues := None;
      queued := [];
      sent := [];
    }

    /** `LeftButton`/`RightButton`: the button rule applied to the shared
        parameters. */
    method Button(pressed: bool)
      modifies params`frozen, params`cueing
      ensures (params.frozen, params.cueing) ==
        ButtonStep(old(params.frozen), old(params.cueing), pressed, cuedValues.Some?)
    {
      if pressed {
        if params.cueing {
          params.cueing := false;
        } else if params.frozen {
          params.cueing := true;
        } else {
          params.frozen := true;
        }
      } else if !cuedValues.Some? {
        params.frozen := false;
      }
    }

    /** `BankChange`: records the chosen bank in the shared parameters. */
    method BankChange(bank: U8)
      modifies params`bank
      ensures params.bank == bank
    {
      params.bank := bank;
    }

    /** `ControlChange`: a turn of a known knob queues a loop event at the
        current position, unless the knob's loop is still playing. */
    method ControlChange(control: C, value: OutputValue, source: EventSource)
      requires Valid()
      modifies this`queued
      ensures queued == old(queued) +
        if control in controlIds && Allowed(loops, control, lastPos)
        then [QueuedEvent(LoopEvent(value, lastPos, controlIds[control]), source)] else []
    {
      if control in controlIds {
        var id := controlIds[control];
        var allow := if control in loops then
          MidiTimes.Less(LoopEnd(loops[control]), Sub(lastPos, FromTicks(8)))
        else true;
        if allow {
          queued := queued + [QueuedEvent(LoopEvent(value, lastPos, id), source)];
        }
      }
    }

    /** `Event`: a turn that is not replayed drops the knob's loop unless
        cueing; while cueing it is held back as a cued value; the knob's
        value changes only for replayed events or when not cueing; only
        those and uncued turns are sent on; every event is recorded. */
    method HandleEvent(event: LoopEvent, source: EventSource)
      requires Valid()
      modifies this`loops, this`cuedValues, this`lastValues, this`queued, recorder
      ensures Valid()
      ensures var control := fromId(event.id);
        var value := OutputValues.Value(event.value);
        && loops == (if source != Looped && !cueing then old(loops) - {control} else old(loops))
        && cuedValues == (if old(cuedValues).Some? && source != Looped && cueing
                          then Some(old(cuedValues).value[control := value]) else old(cuedValues))
        && lastValues == (if source == Looped || !cueing then old(lastValues)[control := value] else old(lastValues))
        && queued == old(queued)
             + (if source == Looped || (source == User && !cueing) then [QueuedSend(control)] else [])
             + [QueuedRefresh(control)]
      ensures recorder.perId.Keys == old(recorder.perId).Keys + {event.id}
      ensures event in recorder.perId[event.id]
      ensures forall id :: id in old(recorder.perId) && id != event.id ==>
        recorder.perId[id] == old(recorder.perId)[id]
    {
      UpdateKnob(fromId(event.id), OutputValues.Value(event.value), source);
      recorder.Add(event);
    }

    /** The knob-state half of `Event`. */
    method UpdateKnob(control: C, value: U8, source: EventSource)
      requires Valid()
      modifies this`loops, this`cuedValues, this`lastValues, this`queued
      ensures Valid()
      ensures loops == (if source != Looped && !cueing then old(loops) - {control} else old(loops))
      ensures cuedValues == (if old(cuedValues).Some? && source != Looped && cueing
                             then Some(old(cuedValues).value[control := value]) else old(cuedValues))
      ensures lastValues == (if source == Looped || !cueing then old(lastValues)[control := value] else old(lastValues))
      ensures queued == old(queued)
             + (if source == Looped || (source == User && !cueing) then [QueuedSend(control)] else [])
             + [QueuedRefresh(control)]
    {
      if source != Looped && !cueing {
        loops := loops - {control};
      }
      if cuedValues.Some? && source != Looped && cueing {
        cuedValues := Some(cuedValues.value[control := value]);
      }
      if source == Looped || !cueing {
        lastValues := lastValues[control := value];
      }
      if source == Looped || (source == User && !cueing) {
        queued := queued + [QueuedSend(control)];
      }
      queued := queued + [QueuedRefresh(control)];
    }

    /** `Recording`: starting remembers the position; stopping a started
        recording turns it into the knob's loop (or drops the loop when too
        short); stopping one never started does nothing. */
    method Recording(control: C, recording: bool)
      requires Valid()
      modifies this`recordStartTimes, this`loops
      ensures Valid()
      ensures recording ==> recordStartTimes == old(recordStartTimes)[control := lastPos] && loops == old(loops)
      ensures !recording ==> recordStartTimes == old(recordStartTimes) - {control}
      ensures !recording && control in old(recordStartTimes) ==>
        loops == EndRecording(old(loops), control, old(recordStartTimes)[control], lastPos)
      ensures !recording && control !in old(recordStartTimes) ==> loops == old(loops)
    {
      if recording {
        recordStartTimes := recordStartTimes[control := lastPos];
      } else if control in recordStartTimes {
        var start := recordStartTimes[control];
        recordStartTimes := recordStartTimes - {control};
        EndRecordingKeepsValid(loops, control, start, lastPos);
        loops := EndRecording(loops, control, start, lastPos);
      } else {
        recordStartTimes := recordStartTimes - {control};
      }
    }

    /** The value a knob shows: its cued value while cueing, otherwise its
        last value, or zero before it has one. */
    function ShownValue(control: C): (value: U8)
      reads this
      ensures cueing && cuedValues.Some? && control in cuedValues.value ==> value == cuedValues.value[control]
      ensures !(cueing && cuedValues.Some? && control in cuedValues.value) ==>
        value == if control in lastValues then lastValues[control] else 0
    {
      if cueing && cuedValues.Some? && control in cuedValues.value then cuedValues.value[control]
      else if control in lastValues then lastValues[control] else 0
    }

    /** The knob's ring animation: a cued knob, a cueing controller, a
        frozen controller and a looping knob each have their own, in that
        order of precedence, and a plain knob has none. */
    function Animation(control: C): (mode: U8)
      reads this
      ensures mode == 61 <==> cueing && cuedValues.Some? && control in cuedValues.value
      ensures mode == 15 <==> cueing && !(cuedValues.Some? && control in cuedValues.value)
      ensures mode == 59 <==> !cueing && frozen
      ensures mode == 13 <==> !cueing && !frozen && control in loops
      ensures mode == 0 <==> !cueing && !frozen && control !in loops
    {
      if cueing && cuedValues.Some? && control in cuedValues.value then 61
      else if cueing then 15
      else if frozen then 59
      else if control in loops then 13
      else 0
    }

    /** `Refresh`: a known knob is sent the value it shows and then its
        animation on the animation channel; other controls send nothing. */
    method Refresh(control: C)
      modifies this`sent
      ensures control in controlIds ==>
        sent == old(sent) + [[176, AsU8(controlIds[control]), ShownValue(control)],
                             [181, AsU8(controlIds[control]), Animation(control)]]
      ensures control !in controlIds ==> sent == old(sent)
    {
      if control in controlIds {
        var id := AsU8(controlIds[control]);
        sent := sent + [[176, id, ShownValue(control)], [181, id, Animation(control)]];
      }
    }

    /** The acknowledgement of a "clear all": a pending reset clears every
        knob's loop. */
    method ResetAutomation()
      requires Valid()
      modifies this`loops, params`resetAutomation
      ensures Valid() && !params.resetAutomation
      ensures loops == if old(params.resetAutomation) then map[] else old(loops)
    {
      if params.resetAutomation {
        params.resetAutomation := false;
        loops := map[];
      }
    }

    /** A bank chosen since the last tick is sent back to the knobs. */
    method AnnounceBank()
      modifies this`currentBank, this`sent
      ensures currentBank == params.bank
      ensures sent == old(sent) + if old(currentBank) != params.bank then [[179, params.bank, 127]] else []
    {
      if currentBank != params.bank {
        sent := sent + [[179, params.bank, 127]];
        currentBank := params.bank;
      }
    }

    /** The freeze half of `Schedule`: entering a freeze snapshots the
        knobs' values and loops; leaving it restores both snapshots, puts
        the cued values on top and drops the cue. */
    method SyncFreeze()
      requires Valid()
      modifies this`loops, this`lastValues, this`frozen, this`frozenValues, this`frozenLoops, this`cuedValues
      ensures Valid() && frozen == params.frozen
      ensures old(frozen) == params.frozen ==>
        loops == old(loops) && lastValues == old(lastValues) && cuedValues == old(cuedValues)
        && frozenValues == old(frozenValues) && frozenLoops == old(frozenLoops)
      ensures !old(frozen) && params.frozen ==>
        loops == old(loops) && lastValues == old(lastValues) && cuedValues == old(cuedValues)
        && frozenValues == Some(old(lastValues)) && frozenLoops == Some(old(loops))
      ensures old(frozen) && !params.frozen ==>
        loops == old(frozenLoops).value && cuedValues.None?
        && lastValues == old(frozenValues).value + (if old(cuedValues).Some? then old(cuedValues).value else map[])
    {
      if params.frozen != frozen {
        frozen := params.frozen;
        if frozen {
          frozenValues := Some(lastValues);
          frozenLoops := Some(loops);
        } else {
          if frozenLoops.Some? {
            loops := frozenLoops.value;
            frozenLoops := None;
          }
          if frozenValues.Some? {
            lastValues := frozenValues.value;
            frozenValues := None;
          }
          if cuedValues.Some? {
            lastValues := lastValues + cuedValues.value;
          }
          cuedValues := None;
        }
      }
    }

    /** The cue half of `Schedule`: entering cue mode starts an empty cue
        unless one is held; leaving it may flip the bank page to clear
        stale animations. */
    method SyncCue()
      modifies this`cueing, this`cuedValues, this`sent
      ensures cueing == params.cueing
      ensures cuedValues == if params.cueing && !old(cueing) && old(cuedValues).None? then Some(map[]) else old(cuedValues)
      ensures sent == old(sent) + if !params.cueing && old(cueing) && swapPagesOnUncue
        then [[179, (params.bank + 1) % 4, 127], [179, params.bank, 127]] else []
    {
      if params.cueing != cueing {
        cueing := params.cueing;
        if cueing {
          if !cuedValues.Some? {
            cuedValues := Some(map[]);
          }
        } else if swapPagesOnUncue {
          sent := sent + [[179, (params.bank + 1) % 4, 127], [179, params.bank, 127]];
        }
      }
    }

    /** The bookkeeping of `Schedule`: a pending automation reset clears
        the loops; a new bank is announced; then the freeze and the cue
        follow the shared parameters, and the position advances. */
    method Schedule(pos: MidiTime)
      requires Valid() && MidiTimes.Valid(pos)
      modifies this`loops, this`lastValues, this`currentBank, this`frozen, this`cueing,
        this`frozenValues, this`frozenLoops, this`cuedValues, this`sent, this`lastPos,
        params`resetAutomation
      ensures Valid()
      ensures !params.resetAutomation && lastPos == pos
      ensures frozen == params.frozen && cueing == params.cueing && currentBank == params.bank
      ensures var cleared := if old(params.resetAutomation) then map[] else old(loops);
        && (old(frozen) == params.frozen ==>
              loops == cleared && lastValues == old(lastValues)
              && frozenValues == old(frozenValues) && frozenLoops == old(frozenLoops))
        && (!old(frozen) && params.frozen ==>
              loops == cleared && lastValues == old(lastValues)
              && frozenValues == Some(old(lastValues)) && frozenLoops == Some(cleared))
        && (old(frozen) && !params.frozen ==>
              loops == old(frozenLoops).value
              && lastValues == old(frozenValues).value
                   + (if old(cuedValues).Some? then old(cuedValues).value else map[]))
      ensures var kept := if old(frozen) && !params.frozen then None else old(cuedValues);
        cuedValues == if params.cueing && !old(cueing) && kept.None? then Some(map[]) else kept
    {
      ResetAutomation();
      AnnounceBank();
      SyncFreeze();
      SyncCue();
      lastPos := pos;
    }
  }
}
