/** The modulator Twister: every knob is a modulator slot, and one chosen
    modulator per tick is sent again round robin so the bus is never
    flooded. It drives the shared knob looper. */
module ModTwisters {
  import opened RustInt
  import opened Prelude
  import opened TwisterLoops
  import opened LoopRecorders

  datatype Control = Modulator(index: nat) | NoControl

  /** `from_id`: knob `id` is modulator `id`, whatever the id. */
  function FromId(id: nat): (c: Control)
    ensures c.Modulator? && c.index == id
  {
    Modulator(id)
  }

  /** `get_control_ids`: modulators 0 to 63, each mapped to its knob. */
  method GetControlIds() returns (result: map<Control, nat>)
    ensures forall c :: c in result <==> c.Modulator? && c.index < 64
    ensures forall c :: c in result ==> result[c] == c.index
  {
    result := map[];
    var id := 0;
    while id < 64
      invariant 0 <= id <= 64
      invariant forall c :: c in result <==> c.Modulator? && c.index < id
      invariant forall c :: c in result ==> result[c] == c.index
    {
      var control := FromId(id);
      if control != NoControl {
        result := result[control := id];
      }
      id := id + 1;
    }
  }

  /** The start of the thread: every modulator slot with a configured
      start value (`modulators[i]`, `None` for an empty slot) holds it, and
      nothing else has a value. */
  method StartValues(modulators: seq<Option<U8>>) returns (values: map<Control, U8>)
    ensures forall c :: c in values <==> c.Modulator? && c.index < |modulators| && modulators[c.index].Some?
    ensures forall c :: c in values ==> values[c] == modulators[c.index].value
  {
    values := map[];
    var index := 0;
    while index < |modulators|
      invariant 0 <= index <= |modulators|
      invariant forall c :: c in values <==> c.Modulator? && c.index < index && modulators[c.index].Some?
      invariant forall c :: c in values ==> values[c] == modulators[c.index].value
    {
      if modulators[index].Some? {
        values := values[Modulator(index) := modulators[index].value];
      }
      index := index + 1;
    }
  }

  /** The modulator Twister's message loop: the shared looper over
      modulator slots, starting from their configured values, flipping
      the bank page on leaving cue mode. */
  method NewModTwister(params: FreezeParams, modulators: seq<Option<U8>>) returns (twister: KnobLooper<Control>)
    ensures fresh(twister) && fresh(twister.recorder) && twister.Valid()
    ensures twister.params == params && twister.swapPagesOnUncue
    ensures forall id: nat :: twister.fromId(id) == Modulator(id)
    ensures forall c :: c in twister.controlIds <==> c.Modulator? && c.index < 64
    ensures forall c :: c in twister.lastValues <==> c.Modulator? && c.index < |modulators| && modulators[c.index].Some?
    ensures forall c :: c in twister.lastValues ==> twister.lastValues[c] == modulators[c.index].value
    ensures twister.recorder.perId.Keys == twister.controlIds.Values
    ensures forall id :: id in twister.recorder.perId ==> twister.recorder.perId[id] == []
  {
    var controlIds := GetControlIds();
    var recorder := new LoopRecorder();
    AllocateKnobs(recorder, controlIds.Values);
    var values := StartValues(modulators);
    twister := new KnobLooper(FromId, controlIds, params, recorder, true, values);
  }

  /** The step of `continuously_send` that the tick after `step` uses. */
  function NextStep(step: nat, count: nat): (next: nat)
    requires step < count
    ensures next < count
    ensures next == if step == count - 1 then 0 else step + 1
  {
    (step + 1) % count
  }

  /** The step reached after `ticks` ticks from `step`. */
  function StepAfter(step: nat, count: nat, ticks: nat): (r: nat)
    requires step < count
    ensures r < count
  {
    if ticks == 0 then step else NextStep(StepAfter(step, count, ticks - 1), count)
  }

  /** Ticks taken in two runs end where the same ticks taken at once do. */
  lemma {:induction false} StepAfterCompose(step: nat, count: nat, a: nat, b: nat)
    requires step < count
    ensures StepAfter(step, count, a + b) == StepAfter(StepAfter(step, count, a), count, b)
  {
    if b > 0 {
      StepAfterCompose(step, count, a, b - 1);
    }
  }

  /** Before the end of the list the step climbs by one per tick. */
  lemma {:induction false} StepAfterClimbs(step: nat, count: nat, ticks: nat)
    requires step + ticks < count
    ensures StepAfter(step, count, ticks) == step + ticks
  {
    if ticks > 0 {
      StepAfterClimbs(step, count, ticks - 1);
    }
  }

  /** From any step, the step wraps to the head of the list after the
      ticks that remain to the end. */
  lemma StepAfterWraps(step: nat, count: nat)
    requires step < count
    ensures StepAfter(step, count, count - step) == 0
  {
    StepAfterClimbs(step, count, count - 1 - step);
  }

  /** Round robin: from any step, every entry of the list is chosen within
      the next `count` ticks. */
  lemma EveryEntryChosen(step: nat, count: nat, target: nat)
    requires step < count && target < count
    ensures var ticks := if step <= target then target - step else count - step + target;
      ticks < count && StepAfter(step, count, ticks) == target
  {
    if step <= target {
      StepAfterClimbs(step, count, target - step);
    } else {
      StepAfterWraps(step, count);
      StepAfterCompose(step, count, count - step, target);
      StepAfterClimbs(0, count, target);
    }
  }

  /** After exactly `count` ticks the step is back where it started. */
  lemma StepsRepeat(step: nat, count: nat)
    requires step < count
    ensures StepAfter(step, count, count) == step
  {
    StepAfterWraps(step, count);
    StepAfterCompose(step, count, count - step, step);
    StepAfterClimbs(0, count, step);
  }

  /** The `continuously_send` part of `Schedule`: the modulators listed
      are refreshed one per tick, in turn. */
  class RoundRobin {
    const continuouslySend: seq<nat>
    var step: nat
    /** The modulators sent, in order. */
    ghost var sends: seq<Control>

    ghost predicate Valid()
      reads this
    {
      |continuouslySend| > 0 ==> step < |continuouslySend|
    }

    constructor (continuouslySend: seq<nat>)
      ensures Valid() && this.continuouslySend == continuouslySend && step == 0 && sends == []
    {
      this.continuouslySend := continuouslySend;
      step := 0;
      sends := [];
    }

    /** One tick: the modulator at the current step is sent unless a loop
        event already went to it this tick, and the step moves on; an empty
        list does nothing. */
    method Tick(scheduled: set<Control>)
      requires Valid()
      modifies this
      ensures Valid()
      ensures |continuouslySend| == 0 ==> step == old(step) && sends == old(sends)
      ensures |continuouslySend| > 0 ==>
        var control := Modulator(continuouslySend[old(step)]);
        step == NextStep(old(step), |continuouslySend|)
        && sends == old(sends) + if control in scheduled then [] else [control]
    {
      if |continuouslySend| > 0 {
        var control := Modulator(continuouslySend[step]);
        if control !in scheduled {
          sends := sends + [control];
        }
        step := (step + 1) % |continuouslySend|;
      }
    }
  }
}
