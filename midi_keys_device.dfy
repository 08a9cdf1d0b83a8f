/** The polyphonic keyboard device: plays grid ids as notes of the shared
    scale on every output it drives, folding chords back into the row so
    that an offset does not run them off the grid, and re-pitches held
    notes when the scale or offset changes under them. */
module MidiKeysDevices {
  import opened RustInt
  import opened Prelude
  import opened OutputValues
  import opened Scales

  /** `get_note_id`'s scale offset: the base degree plus the offset, less
      seven when the offset pushes the column past the ninth degree of the
      row and plus seven when it pushes it below the first, for offsets
      within a week of degrees. */
  function InvertedOffset(id: nat, base: int, offset: int): int
  {
    var col := id % 8;
    if -7 < offset < 7 && col + offset > 8 then base + offset - 7
    else if -7 < offset < 7 && col + offset < 0 then base + offset + 7
    else base + offset
  }

  /** With an offset inside the inversion window, the column plus the
      applied offset always lands on one of the row's nine degrees. */
  lemma InversionKeepsColumnInRow(id: nat, base: int, offset: int)
    requires -7 < offset < 7
    ensures 0 <= id % 8 + (InvertedOffset(id, base, offset) - base) <= 8
  {
  }

  /** Two notes are the same or an octave apart. */
  predicate OctaveApart(a: int, b: int)
  {
    a == b || a == b - 12 || a == b + 12
  }

  /** The inversion moves the degree by a week of degrees or not at all,
      so, by `WeekApart`, the note by an octave or not at all. */
  lemma InvertedShift(id: nat, base: int, offset: int)
    ensures var shift := InvertedOffset(id, base, offset) - (base + offset);
            shift == 0 || shift == -7 || shift == 7
  {
  }

  /** Degrees a week apart are an octave apart. */
  lemma WeekApart(root: int, scale: int, v: int, w: int)
    requires w == v || w == v - 7 || w == v + 7
    ensures OctaveApart(NoteAtAsWritten(root, scale, w), NoteAtAsWritten(root, scale, v))
  {
    if w == v - 7 {
      AsWrittenOctave(root, scale, w);
    } else if w == v + 7 {
      AsWrittenOctave(root, scale, v);
    }
  }

  /** `get_note_id`: the note of the inverted degree. */
  function ChordNote(id: nat, root: int, scale: int, base: int, offset: int, pitch: int, oct: int): (note: int)
    ensures 0 <= note < 256
    ensures offset == 0 ==> note == PlayedNote(root, scale, id + base, pitch, oct)
  {
    PlayedNote(root, scale, id + InvertedOffset(id, base, offset), pitch, oct)
  }

  /** `messages` repeated `count` times: one send to each of `count`
      outputs. */
  function Times(count: nat, messages: seq<seq<int>>): (r: seq<seq<int>>)
    ensures |r| == count * |messages|
  {
    if count == 0 then [] else messages + Times(count - 1, messages)
  }

  /** `MidiKeys`: held notes by grid id, each with its note and velocity,
      sent to `outputs` connections on one channel. */
  class MidiKeys {
    const outputs: nat
    const channel: int
    const scale: Scale
    const offset: Offset
    var outputValues: map<nat, (int, int)>
    /** Every message sent, output by output, in order. */
    ghost var sent: seq<seq<int>>

    constructor (outputs: nat, channel: int, scale: Scale, offset: Offset)
      ensures this.outputs == outputs && this.channel == channel
      ensures this.scale == scale && this.offset == offset
      ensures outputValues == map[] && sent == []
    {
      this.outputs := outputs;
      this.channel := channel;
      this.scale := scale;
      this.offset := offset;
      outputValues := map[];
      sent := [];
    }

    /** The note `id` would play now. */
    function CurrentNote(id: nat): (note: int)
      reads scale, offset
      ensures 0 <= note < 256
      ensures offset.offset == 0 ==> note == PlayedNote(scale.root, scale.scale, id + offset.base, offset.pitch, offset.oct)
    {
      ChordNote(id, scale.root, scale.scale, offset.base, offset.offset, offset.pitch, offset.oct)
    }

    /** The ids held in both `before` and `after` whose note differs. */
    function Changed(before: map<nat, (int, int)>, after: map<nat, (int, int)>): set<nat>
    {
      set id | id in before && id in after && before[id].0 != after[id].0
    }

    /** The messages `on_tick` sends for `ids`, in that order: for each id,
        to each output, the new note from `renewed` at the held velocity and
        then the old note at velocity zero. */
    function RepitchMessages(ids: seq<nat>, values: map<nat, (int, int)>, renewed: map<nat, (int, int)>): seq<seq<int>>
      requires forall id :: id in ids ==> id in values && id in renewed
    {
      if ids == [] then []
      else
        var id := ids[|ids| - 1];
        RepitchMessages(ids[..|ids| - 1], values, renewed)
        + Times(outputs, [[143 + channel, renewed[id].0, values[id].1], [143 + channel, values[id].0, 0]])
    }

    /** `get_note_id`: the note of the degree `id` moved by the inverted
        scale offset. */
    method NoteId(id: nat) returns (note: int)
      ensures note == CurrentNote(id)
    {
      var scaleOffset := ScaleOffset(id);
      note := scale.PlayedNoteAt(id + scaleOffset, offset.pitch, offset.oct);
      assert note == PlayedNote(scale.root, scale.scale, id + scaleOffset, offset.pitch, offset.oct);
    }

    /** The chord inversion of `get_note_id`: the base and scale offsets,
        folded back by a week of degrees when the column would leave the
        row. */
    method ScaleOffset(id: nat) returns (scaleOffset: int)
      ensures scaleOffset == InvertedOffset(id, offset.base, offset.offset)
    {
      scaleOffset := offset.base + offset.offset;
      var col := id % 8;
      if offset.offset > -7 && offset.offset < 7 {
        if col + offset.offset > 8 {
          scaleOffset := scaleOffset - 7;
        } else if col + offset.offset < 0 {
          scaleOffset := scaleOffset + 7;
        }
      }
    }

    /** `trigger`: a press plays the note on every output and holds it
        with its velocity; a release of a held id sends a zero-velocity
        note-on for the held note to every output and forgets it; a
        release of an id not held does nothing. */
    method Trigger(id: nat, value: OutputValue)
      modifies this
      ensures value.Off? && id in old(outputValues) ==>
        sent == old(sent) + Times(outputs, [[143 + channel, old(outputValues)[id].0, 0]])
        && outputValues == old(outputValues) - {id}
      ensures value.Off? && id !in old(outputValues) ==>
        sent == old(sent) && outputValues == old(outputValues)
      ensures value.On? ==>
        sent == old(sent) + Times(outputs, [[143 + channel, old(CurrentNote(id)), value.velocity]])
        && outputValues == old(outputValues)[id := (old(CurrentNote(id)), value.velocity)]
    {
      match value {
        case Off =>
          if id in outputValues {
            var noteId := outputValues[id].0;
            SendToAll([[143 + channel, noteId, 0]]);
            outputValues := outputValues - {id};
          }
        case On(velocity) =>
          var noteId := NoteId(id);
          SendToAll([[143 + channel, noteId, velocity]]);
          outputValues := outputValues[id := (noteId, velocity)];
      }
    }

    /** Only the entries of `ids` in `renewed` matter. */
    lemma {:induction false} RepitchMessagesFrom(ids: seq<nat>, values: map<nat, (int, int)>, renewed: map<nat, (int, int)>, other: map<nat, (int, int)>)
      requires forall id :: id in ids ==> id in values && id in renewed && id in other && other[id] == renewed[id]
      ensures RepitchMessages(ids, values, renewed) == RepitchMessages(ids, values, other)
    {
      if ids != [] {
        RepitchMessagesFrom(ids[..|ids| - 1], values, renewed, other);
      }
    }

    /** Re-pitching one more id appends its messages. */
    lemma RepitchStep(ids: seq<nat>, id: nat, values: map<nat, (int, int)>, renewed: map<nat, (int, int)>, entry: (int, int))
      requires id in values && id !in ids
      requires forall k :: k in ids ==> k in values && k in renewed
      ensures RepitchMessages(ids + [id], values, renewed[id := entry])
           == RepitchMessages(ids, values, renewed)
              + Times(outputs, [[143 + channel, entry.0, values[id].1], [143 + channel, values[id].0, 0]])
    {
      assert (ids + [id])[..|ids|] == ids;
      RepitchMessagesFrom(ids, values, renewed, renewed[id := entry]);
    }

    /** `messages` sent to each output in turn. */
    method SendToAll(messages: seq<seq<int>>)
      modifies this
      ensures sent == old(sent) + Times(outputs, messages)
      ensures outputValues == old(outputValues)
    {
      var i := 0;
      ghost var start := sent;
      while i < outputs
        invariant 0 <= i <= outputs && outputValues == old(outputValues)
        invariant start + Times(outputs, messages) == sent + Times(outputs - i, messages)
      {
        sent := sent + messages;
        i := i + 1;
      }
    }

    /** `on_tick`: every held id whose note is no longer the one it would
        play now is re-pitched, in an unspecified order, keeping its
        velocity; the other held notes are left alone and no id is added or
        dropped. */
    method OnTick()
      modifies this
      ensures outputValues.Keys == old(outputValues).Keys
      ensures forall id :: id in outputValues ==>
        outputValues[id] == (CurrentNote(id), old(outputValues)[id].1)
      ensures exists order ::
        ListsOnce(order, Changed(old(outputValues), outputValues))
        && sent == old(sent) + RepitchMessages(order, old(outputValues), outputValues)
    {
      var updated, order, out := Repitch(outputValues);
      sent := sent + out;
      outputValues := updated;
      assert ListsOnce(order, Changed(old(outputValues), outputValues));
    }

    /** What the loop of `on_tick` keeps while it walks the held ids:
        `remaining` ids still hold their `values` entry, the others hold
        their `target` entry, `order` lists each id whose note changed once,
        and `out` holds the messages for those ids in that order. */
    ghost predicate RepitchInvariant(values: map<nat, (int, int)>, target: map<nat, (int, int)>, updated: map<nat, (int, int)>,
                                     remaining: set<nat>, order: seq<nat>, out: seq<seq<int>>)
    {
      && remaining <= values.Keys && updated.Keys == values.Keys && target.Keys == values.Keys
      && (forall id :: id in remaining ==> updated[id] == values[id])
      && (forall id :: id in values && id !in remaining ==> updated[id] == target[id])
      && (forall id :: id in order <==> id in Changed(values, updated))
      && (forall i, j :: 0 <= i < j < |order| ==> order[i] != order[j])
      && out == RepitchMessages(order, values, updated)
    }

    /** Visiting an id whose target note differs records it and its
        messages. */
    lemma RepitchAdvanceChanged(values: map<nat, (int, int)>, target: map<nat, (int, int)>, updated: map<nat, (int, int)>,
                                remaining: set<nat>, order: seq<nat>, out: seq<seq<int>>, id: nat)
      requires RepitchInvariant(values, target, updated, remaining, order, out)
      requires id in remaining && target[id].1 == values[id].1 && target[id].0 != values[id].0
      ensures RepitchInvariant(values, target, updated[id := target[id]], remaining - {id}, order + [id],
                               out + Times(outputs, [[143 + channel, target[id].0, values[id].1], [143 + channel, values[id].0, 0]]))
    {
      assert id !in Changed(values, updated);
      RepitchStep(order, id, values, updated, target[id]);
    }

    /** Visiting an id whose target note is unchanged records nothing. */
    lemma RepitchAdvanceSame(values: map<nat, (int, int)>, target: map<nat, (int, int)>, updated: map<nat, (int, int)>,
                             remaining: set<nat>, order: seq<nat>, out: seq<seq<int>>, id: nat)
      requires RepitchInvariant(values, target, updated, remaining, order, out)
      requires id in remaining && target[id] == values[id]
      ensures RepitchInvariant(values, target, updated[id := target[id]], remaining - {id}, order, out)
    {
      assert id !in Changed(values, updated);
      RepitchMessagesFrom(order, values, updated, updated[id := target[id]]);
    }

    /** The loop of `on_tick` over the held ids: the entries after
        re-pitching, the order the stale ids were visited in and the
        messages sent for them. */
    method Repitch(values: map<nat, (int, int)>) returns (updated: map<nat, (int, int)>, ghost order: seq<nat>, ghost out: seq<seq<int>>)
      ensures updated.Keys == values.Keys
      ensures forall id :: id in updated ==> updated[id] == (CurrentNote(id), values[id].1)
      ensures ListsOnce(order, Changed(values, updated))
      ensures out == RepitchMessages(order, values, updated)
    {
      ghost var target := map id | id in values :: (CurrentNote(id), values[id].1);
      var remaining := values.Keys;
      updated := values;
      order := [];
      out := [];
      while remaining != {}
        invariant RepitchInvariant(values, target, updated, remaining, order, out)
        decreases remaining
      {
        var id :| id in remaining;
        var (noteId, velocity) := values[id];
        var newNoteId := NoteId(id);
        assert target[id] == (newNoteId, velocity);
        if noteId != newNoteId {
          RepitchAdvanceChanged(values, target, updated, remaining, order, out, id);
          out := out + Times(outputs, [[143 + channel, newNoteId, velocity], [143 + channel, noteId, 0]]);
          order := order + [id];
        } else {
          RepitchAdvanceSame(values, target, updated, remaining, order, out, id);
        }
        updated := updated[id := (newNoteId, velocity)];
        remaining := remaining - {id};
      }
    }
  }
}
