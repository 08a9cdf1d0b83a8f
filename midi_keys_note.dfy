/** The keyboard output: plays a grid id as a note of the shared scale,
    moved by the shared key offset, and remembers the note so that the
    release silences the same note even if the scale has changed since. */
module MidiKeyNotes {
  import opened RustInt
  import opened OutputValues
  import opened Scales

  /** Scale-degree offsets picked by `Offset.third`, from -5 to 5 around
      the unmoved centre entry. */
  const THIRD_OFFSETS: seq<int> := [-9, -7, -5, -4, -3, 0, 2, 3, 4, 7, 9]

  /** The note `note` plays for `id`: the degree `id`, moved by the third's
      offset and by the scale offset. The third indexes the table, so it
      must lie within five steps of the centre. */
  function KeyNote(id: int, root: int, scale: int, third: int, offset: int, pitch: int, oct: int): (note: int)
    requires -5 <= third <= 5
    ensures 0 <= note < 256
    ensures third == 0 ==> note == PlayedNote(root, scale, id + offset, pitch, oct)
  {
    PlayedNote(root, scale, id + THIRD_OFFSETS[5 + third] + offset, pitch, oct)
  }

  /** The key seven grid ids up plays an octave higher, modulo the byte
      cut. */
  lemma KeyNoteWeek(id: int, root: int, scale: int, third: int, offset: int, pitch: int, oct: int)
    requires -5 <= third <= 5
    ensures KeyNote(id + 7, root, scale, third, offset, pitch, oct)
         == (KeyNote(id, root, scale, third, offset, pitch, oct) + 12) % 256
  {
    var degree := id + THIRD_OFFSETS[5 + third] + offset;
    assert id + 7 + THIRD_OFFSETS[5 + third] + offset == degree + 7;
    PlayedNoteWeek(root, scale, degree, pitch, oct);
    PlayedNoteOctave(root, scale, degree, pitch, oct);
  }

  /** A higher third picks a higher scale degree. */
  lemma ThirdOffsetsRise(i: int, j: int)
    requires 0 <= i < j < |THIRD_OFFSETS|
    ensures THIRD_OFFSETS[i] < THIRD_OFFSETS[j]
  {
    assert forall k :: 0 <= k < |THIRD_OFFSETS| - 1 ==> THIRD_OFFSETS[k] < THIRD_OFFSETS[k + 1];
    var k := i;
    while k < j
      invariant i <= k <= j
      invariant THIRD_OFFSETS[i] <= THIRD_OFFSETS[k]
      invariant k > i ==> THIRD_OFFSETS[i] < THIRD_OFFSETS[k]
    {
      k := k + 1;
    }
  }

  /** The centre third and no scale offset play the degree `id` itself. */
  lemma CentreThirdPlaysDegree(id: int, root: int, scale: int, pitch: int, oct: int)
    ensures KeyNote(id, root, scale, 0, 0, pitch, oct) == PlayedNote(root, scale, id, pitch, oct)
  {
  }

  /** `MidiKeys`: the notes held by grid id on one MIDI channel. */
  class MidiKeys {
    const channel: int
    const scale: Scale
    const offset: Offset
    /** The note each held id is sounding. */
    var outputValues: map<nat, int>
    /** Every message sent to the output, in order. */
    ghost var sent: seq<seq<int>>

    /** Every held note is a byte. */
    ghost predicate Valid()
      reads this
    {
      forall id :: id in outputValues ==> 0 <= outputValues[id] < 256
    }

    constructor (channel: int, scale: Scale, offset: Offset)
      ensures this.channel == channel && this.scale == scale && this.offset == offset
      ensures Valid() && outputValues == map[] && sent == []
    {
      this.channel := channel;
      this.scale := scale;
      this.offset := offset;
      outputValues := map[];
      sent := [];
    }

    /** `note`: a press plays the key's note now and remembers it; a
        release silences the remembered note with a zero-velocity note-on
        and forgets it, and a release of an id not held does nothing. */
    method Note(id: nat, value: OutputValue)
      requires Valid()
      requires value.On? ==> -5 <= offset.third <= 5
      modifies this
      ensures Valid()
      ensures value.Off? && id in old(outputValues) ==>
        sent == old(sent) + [[143 + channel, old(outputValues)[id], 0]]
        && outputValues == old(outputValues) - {id}
      ensures value.Off? && id !in old(outputValues) ==>
        sent == old(sent) && outputValues == old(outputValues)
      ensures value.On? ==>
        var note := KeyNote(id, scale.root, scale.scale, offset.third, offset.offset, offset.pitch, offset.oct);
        sent == old(sent) + [[143 + channel, note, value.velocity]]
        && outputValues == old(outputValues)[id := note]
    {
      match value {
        case Off =>
          if id in outputValues {
            var noteId := outputValues[id];
            sent := sent + [[143 + channel, noteId, 0]];
            outputValues := outputValues - {id};
          }
        case On(velocity) =>
          var thirdOffset := THIRD_OFFSETS[5 + offset.third];
          var scaleOffset := thirdOffset + offset.offset;
          var noteId := scale.PlayedNoteAt(id + scaleOffset, offset.pitch, offset.oct);
          sent := sent + [[143 + channel, noteId, velocity]];
          outputValues := outputValues[id := noteId];
      }
    }
  }
}
