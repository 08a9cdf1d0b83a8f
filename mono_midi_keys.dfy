/** The monophonic keyboard: plays one note at a time, the most recently
    pressed key sounding; releasing it falls back to the key pressed
    before it. */
module MonoMidiKeysDevices {
  import opened RustInt
  import opened OutputValues
  import opened Scales
  import opened IdStacks

  /** The held notes of a monophonic keyboard: the note and velocity of
      each held id, and the ids in the order they were pressed, most recent
      last. */
  datatype Held = Held(values: map<nat, (int, int)>, stack: seq<nat>)

  /** The ids on the stack are exactly the held ids. */
  ghost predicate Consistent(held: Held)
  {
    forall id :: id in held.stack <==> id in held.values
  }

  /** A release of `id` on `channel`: the new held notes and the messages
      sent. Only a release of the id on top sounds anything: the note-on
      of the id below it, looked up before the release is forgotten, then
      the released note's note-off. */
  function Release(held: Held, id: nat, channel: int): (r: (Held, seq<seq<int>>))
    ensures r.0 == Held(held.values - {id}, Without(held.stack, id))
    ensures |r.1| <= 2
    ensures r.1 != [] <==> id in held.values && |held.stack| > 0 && held.stack[|held.stack| - 1] == id
    ensures r.1 != [] ==> r.1[|r.1| - 1] == [127 + channel, held.values[id].0, 0]
  {
    if id in held.values then
      var stack := held.stack;
      var messages :=
        if |stack| > 0 && stack[|stack| - 1] == id then
          var rest := stack[..|stack| - 1];
          (if |rest| > 0 && rest[|rest| - 1] in held.values then [[143 + channel, held.values[rest[|rest| - 1]].0, held.values[rest[|rest| - 1]].1]] else [])
          + [[127 + channel, held.values[id].0, 0]]
        else [];
      (Held(held.values - {id}, Without(stack, id)), messages)
    else (Held(held.values, Without(held.stack, id)), [])
  }

  /** A press of `id` playing `entry`: the note-on, then the note-off of
      the id on top of the stack, looked up after `entry` is stored. */
  function Press(held: Held, id: nat, entry: (int, int), channel: int): (r: (Held, seq<seq<int>>))
    ensures r.0 == Held(held.values[id := entry], held.stack + [id])
    ensures 1 <= |r.1| <= 2 && r.1[0] == [143 + channel, entry.0, entry.1]
    ensures |r.1| == 2 <==> |held.stack| > 0 && (held.stack[|held.stack| - 1] in held.values || held.stack[|held.stack| - 1] == id)
  {
    var values := held.values[id := entry];
    var stack := held.stack;
    var messages := [[143 + channel, entry.0, entry.1]]
      + (if |stack| > 0 && stack[|stack| - 1] in values then [[127 + channel, values[stack[|stack| - 1]].0, 0]] else []);
    (Held(values, stack + [id]), messages)
  }

  /** Presses and releases keep the stack and the held notes in step. */
  lemma TriggerKeepsConsistent(held: Held, id: nat, entry: (int, int), channel: int)
    requires Consistent(held)
    ensures Consistent(Release(held, id, channel).0)
    ensures Consistent(Press(held, id, entry, channel).0)
  {
    WithoutMembers(held.stack, id);
  }

  /** Releasing an id that is not held changes nothing and sends nothing. */
  lemma ReleaseUnheld(held: Held, id: nat, channel: int)
    requires Consistent(held) && id !in held.values
    ensures Release(held, id, channel) == (held, [])
  {
    WithoutAbsent(held.stack, id);
  }

  /** Releasing a held id that is not on top sends nothing. */
  lemma ReleaseBelowTopIsSilent(held: Held, id: nat, channel: int)
    requires |held.stack| > 0 && held.stack[|held.stack| - 1] != id
    ensures Release(held, id, channel).1 == []
  {
  }

  /** Pressing a key that is not held and releasing it again restores the
      held notes. */
  lemma PressThenRelease(held: Held, id: nat, entry: (int, int), channel: int)
    requires Consistent(held) && id !in held.values
    ensures Release(Press(held, id, entry, channel).0, id, channel).0 == held
  {
    var pressed := Held(held.values[id := entry], held.stack + [id]);
    assert Press(held, id, entry, channel).0 == pressed;
    assert Without(pressed.stack, id) == held.stack by {
      assert pressed.stack[..|pressed.stack| - 1] == held.stack;
      WithoutTop(pressed.stack, id);
      assert id !in held.stack;
      WithoutAbsent(held.stack, id);
    }
    assert pressed.values - {id} == held.values;
    ReleaseForgets(pressed, id, channel);
  }

  /** Releasing a held id forgets its note and takes it off the stack. */
  lemma ReleaseForgets(held: Held, id: nat, channel: int)
    requires id in held.values
    ensures Release(held, id, channel).0 == Held(held.values - {id}, Without(held.stack, id))
  {
  }

  /** Meanwhile the key's note sounds, the previous top's note stops, and
      on the release the previous top sounds again before the key's note
      stops. */
  lemma PressThenReleaseSends(held: Held, id: nat, entry: (int, int), channel: int)
    requires Consistent(held) && id !in held.values && |held.stack| > 0
    ensures
      var top := held.stack[|held.stack| - 1];
      var pressed := Press(held, id, entry, channel);
      pressed.1 + Release(pressed.0, id, channel).1
      == [[143 + channel, entry.0, entry.1], [127 + channel, held.values[top].0, 0],
          [143 + channel, held.values[top].0, held.values[top].1], [127 + channel, entry.0, 0]]
  {
    var top := held.stack[|held.stack| - 1];
    assert top in held.values && top != id;
    var pressed := Press(held, id, entry, channel);
    assert pressed.1 == [[143 + channel, entry.0, entry.1], [127 + channel, held.values[top].0, 0]];
    var stack := pressed.0.stack;
    assert stack[|stack| - 1] == id && stack[..|stack| - 1] == held.stack;
    assert Release(pressed.0, id, channel).1
      == [[143 + channel, held.values[top].0, held.values[top].1], [127 + channel, entry.0, 0]];
  }

  /** A repeated press of the id on top sends its new note's note-off right
      after its note-on. */
  lemma RepressTopSilences(held: Held, id: nat, entry: (int, int), channel: int)
    requires |held.stack| > 0 && held.stack[|held.stack| - 1] == id
    ensures Press(held, id, entry, channel).1 == [[143 + channel, entry.0, entry.1], [127 + channel, entry.0, 0]]
  {
  }

  /** `on_tick` for a non-empty stack, given the note its top id would
      play now: if that id is held with another note, the new note-on at
      the held velocity, then the old note's zero-velocity note-on, and
      the new note is stored. */
  function Retune(held: Held, note: int, channel: int): (r: (Held, seq<seq<int>>))
    requires |held.stack| > 0
    ensures r.0.stack == held.stack && r.0.values.Keys == held.values.Keys
    ensures r.1 == [] <==> r.0 == held
    ensures var top := held.stack[|held.stack| - 1];
      top in held.values ==> r.0.values[top] == (note, held.values[top].1)
  {
    var top := held.stack[|held.stack| - 1];
    if top in held.values && held.values[top].0 != note then
      var (previous, velocity) := held.values[top];
      (Held(held.values[top := (note, velocity)], held.stack),
       [[143 + channel, note, velocity], [143 + channel, previous, 0]])
    else (held, [])
  }

  /** Retuning keeps the stack, touches only the top id's note, and keeps
      the stack and the held ids in step. */
  lemma RetuneKeepsConsistent(held: Held, note: int, channel: int)
    requires |held.stack| > 0
    ensures var (after, _) := Retune(held, note, channel);
      after.stack == held.stack && after.values.Keys == held.values.Keys
      && (Consistent(held) ==> Consistent(after))
      && forall id :: id in held.values && id != held.stack[|held.stack| - 1] ==> after.values[id] == held.values[id]
  {
    var (after, _) := Retune(held, note, channel);
    assert after.values.Keys == held.values.Keys;
  }

  /** Once retuned, retuning to the same note sends nothing. */
  lemma RetuneIdempotent(held: Held, note: int, channel: int)
    requires |held.stack| > 0
    ensures Retune(Retune(held, note, channel).0, note, channel) == (Retune(held, note, channel).0, [])
  {
  }

  /** `MonoMidiKeys`: the stack of held ids, most recent last, and the note
      and velocity each held id was played with. */
  class MonoMidiKeys {
    const channel: int
    const scale: Scale
    const offset: Offset
    const octaveOffset: int
    /** `map_velocity` with this device's velocity table. */
    const mapVelocity: int -> int
    var outputValues: map<nat, (int, int)>
    var outputStack: seq<nat>
    /** Every message sent, in order. */
    ghost var sent: seq<seq<int>>

    function State(): Held
      reads this
    {
      Held(outputValues, outputStack)
    }

    constructor (channel: int, scale: Scale, offset: Offset, octaveOffset: int, mapVelocity: int -> int)
      ensures this.channel == channel && this.scale == scale && this.offset == offset
      ensures this.octaveOffset == octaveOffset && this.mapVelocity == mapVelocity
      ensures outputValues == map[] && outputStack == [] && sent == []
    {
      this.channel := channel;
      this.scale := scale;
      this.offset := offset;
      this.octaveOffset := octaveOffset;
      this.mapVelocity := mapVelocity;
      outputValues := map[];
      outputStack := [];
      sent := [];
    }

    /** `get_note_id`: the degree `id` moved by the base and scale offsets,
        shifted by the pitch and by this device's own octave offset. */
    method NoteId(id: nat) returns (note: int)
      ensures note == old(PlayedNote(scale.root, scale.scale, id + (offset.base + offset.offset), offset.pitch, octaveOffset))
    {
      var scaleOffset := offset.base + offset.offset;
      var degree := id + scaleOffset;
      assert degree == id + (offset.base + offset.offset);
      note := scale.PlayedNoteAt(degree, offset.pitch, octaveOffset);
      assert note == PlayedNote(scale.root, scale.scale, degree, offset.pitch, octaveOffset);
    }

    /** `trigger`: a press plays the note `NoteId` gives at the mapped
        velocity and a release forgets the id, sending what `Press` and
        `Release` say. */
    method Trigger(id: nat, value: OutputValue)
      modifies this
      ensures value.Off? ==> State() == Release(old(State()), id, channel).0
      ensures value.Off? ==> sent == old(sent) + Release(old(State()), id, channel).1
      ensures value.On? ==>
        var entry := (old(PlayedNote(scale.root, scale.scale, id + (offset.base + offset.offset), offset.pitch, octaveOffset)), mapVelocity(value.velocity));
        State() == Press(old(State()), id, entry, channel).0 && sent == old(sent) + Press(old(State()), id, entry, channel).1
    {
      match value {
        case Off =>
          ReleaseKey(id);
        case On(velocity) =>
          var noteId := NoteId(id);
          PressKey(id, (noteId, mapVelocity(velocity)));
      }
    }

    /** The `Off` arm of `trigger`. */
    method ReleaseKey(id: nat)
      modifies this
      ensures State() == Release(old(State()), id, channel).0
      ensures sent == old(sent) + Release(old(State()), id, channel).1
    {
      ghost var values, stack := outputValues, outputStack;
      if id in outputValues {
        var noteId := outputValues[id].0;
        if |outputStack| > 0 && outputStack[|outputStack| - 1] == id {
          WithoutTop(outputStack, id);
          outputStack := outputStack[..|outputStack| - 1];
          ghost var resent: seq<seq<int>> := [];
          if |outputStack| > 0 && outputStack[|outputStack| - 1] in outputValues {
            var lastNote := outputValues[outputStack[|outputStack| - 1]];
            resent := [[143 + channel, lastNote.0, lastNote.1]];
          }
          sent := sent + resent + [[127 + channel, noteId, 0]];
          assert Release(Held(values, stack), id, channel).1 == resent + [[127 + channel, noteId, 0]];
        } else {
          assert Release(Held(values, stack), id, channel).1 == [];
        }
        outputValues := outputValues - {id};
      }
      outputStack := Without(outputStack, id);
    }

    /** The `On` arm of `trigger`, once the note and velocity are known. */
    method PressKey(id: nat, entry: (int, int))
      modifies this
      ensures State() == Press(old(State()), id, entry, channel).0
      ensures sent == old(sent) + Press(old(State()), id, entry, channel).1
    {
      sent := sent + [[143 + channel, entry.0, entry.1]];
      outputValues := outputValues[id := entry];
      if |outputStack| > 0 && outputStack[|outputStack| - 1] in outputValues {
        var lastNote := outputValues[outputStack[|outputStack| - 1]];
        sent := sent + [[127 + channel, lastNote.0, 0]];
      }
      outputStack := outputStack + [id];
    }

    /** `on_tick`: what `Retune` says for the id on top of the stack and the
        note it would play now; nothing with an empty stack. */
    method OnTick()
      modifies this
      ensures |old(outputStack)| == 0 ==> State() == old(State()) && sent == old(sent)
      ensures |old(outputStack)| > 0 ==>
        var note := old(PlayedNote(scale.root, scale.scale, outputStack[|outputStack| - 1] + (offset.base + offset.offset), offset.pitch, octaveOffset));
        State() == Retune(old(State()), note, channel).0 && sent == old(sent) + Retune(old(State()), note, channel).1
    {
      if |outputStack| > 0 {
        var newNoteId := NoteId(outputStack[|outputStack| - 1]);
        RetuneTop(newNoteId);
      }
    }

    /** The body of `on_tick` once the note the top id would play now is
        known. */
    method RetuneTop(newNoteId: int)
      requires |outputStack| > 0
      modifies this
      ensures State() == Retune(old(State()), newNoteId, channel).0
      ensures sent == old(sent) + Retune(old(State()), newNoteId, channel).1
    {
      var id := outputStack[|outputStack| - 1];
      if id in outputValues {
        var (noteId, velocity) := outputValues[id];
        if noteId != newNoteId {
          sent := sent + [[143 + channel, newNoteId, velocity], [143 + channel, noteId, 0]];
          outputValues := outputValues[id := (newNoteId, velocity)];
        }
      }
    }
  }
}
