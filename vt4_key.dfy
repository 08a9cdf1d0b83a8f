/** The VT-4 key follower: keeps the voice transformer's key on the major
    key that holds the shared scale, sending the key again only when it
    changes. */
module Vt4Keys {
  import opened RustInt
  import opened Prelude
  import opened MidiTimes
  import opened Scales

  /** Pitch classes of a major key, counted from its tonic. */
  const MAJOR_PITCH_CLASSES: set<int> := {0, 2, 4, 5, 7, 9, 11}

  /** The seven modes of the major table and the offset of each. */
  const MODE_TABLE: seq<seq<int>> := [
    [0, 2, 4, 5, 7, 9, 11], [0, 2, 3, 5, 7, 9, 10], [0, 1, 3, 5, 7, 8, 10],
    [0, 2, 4, 6, 7, 9, 11], [0, 2, 4, 5, 7, 9, 10], [0, 2, 3, 5, 7, 8, 10],
    [0, 1, 3, 5, 6, 8, 10]
  ]
  const MODE_OFFSETS: seq<int> := [0, 2, 4, 5, 7, 9, 11]

  /** `get_mode_offset` as a value: the distance from the major key's tonic
      up to the first note of `mode`, counting at most six steps. */
  function ModeOffset(mode: int): int
  {
    var steps := if mode < 0 then 0 else if mode > 6 then 6 else mode;
    MODE_OFFSETS[steps]
  }

  /** The offsets are the notes of the major scale, the first mode. */
  lemma ModeOffsetsAreMajorScale()
    ensures MODE_OFFSETS == ScaleNotes(MAJOR_INTERVALS, 0)
  {
    MajorModes();
  }

  /** `get_mode_offset`: adds up the major intervals below `mode`, stopping
      after six. */
  method GetModeOffset(mode: int) returns (offset: int)
    ensures offset == ModeOffset(mode)
    ensures 0 <= offset <= 11
  {
    var intervals := MAJOR_INTERVALS;
    offset := 0;
    var i := 0;
    while i < 6
      invariant 0 <= i <= 6 && (i == 0 || i <= mode)
      invariant offset == MODE_OFFSETS[i]
    {
      if i >= mode {
        break;
      }
      offset := offset + intervals[i];
      i := i + 1;
    }
  }

  /** The key the VT-4 is sent for a scale: the root's pitch class, counted
      from C, less the mode's offset. */
  function KeyFor(root: int, scale: int): (key: int)
    ensures 0 <= key < 12
  {
    var baseKey := Modulo(root - 60, 12);
    var offset := ModeOffset(Modulo(scale, 7));
    Modulo(baseKey - offset, 12)
  }

  lemma ModesLow()
    ensures ScaleNotes(MAJOR_INTERVALS, 0) == MODE_TABLE[0]
    ensures ScaleNotes(MAJOR_INTERVALS, 1) == MODE_TABLE[1]
    ensures ScaleNotes(MAJOR_INTERVALS, 2) == MODE_TABLE[2]
  {
  }

  lemma ModesHigh()
    ensures ScaleNotes(MAJOR_INTERVALS, 3) == MODE_TABLE[3]
    ensures ScaleNotes(MAJOR_INTERVALS, 4) == MODE_TABLE[4]
    ensures ScaleNotes(MAJOR_INTERVALS, 5) == MODE_TABLE[5]
    ensures ScaleNotes(MAJOR_INTERVALS, 6) == MODE_TABLE[6]
  {
  }

  lemma ModeRow(mode: int)
    requires 0 <= mode < 7
    ensures ScaleNotes(MAJOR_INTERVALS, mode) == MODE_TABLE[mode]
  {
    ModesLow();
    ModesHigh();
    assert mode == 0 || mode == 1 || mode == 2 || mode == 3 || mode == 4 || mode == 5 || mode == 6;
  }

  /** Every entry of `row`, raised by `offset`, is a degree of the major
      key. */
  predicate RowInKey(row: seq<int>, offset: int)
  {
    forall d :: 0 <= d < |row| ==> (row[d] + offset) % 12 in MAJOR_PITCH_CLASSES
  }

  lemma TableLowInKey()
    ensures RowInKey(MODE_TABLE[0], MODE_OFFSETS[0])
    ensures RowInKey(MODE_TABLE[1], MODE_OFFSETS[1])
    ensures RowInKey(MODE_TABLE[2], MODE_OFFSETS[2])
  {
  }

  lemma TableMidInKey()
    ensures RowInKey(MODE_TABLE[3], MODE_OFFSETS[3])
    ensures RowInKey(MODE_TABLE[4], MODE_OFFSETS[4])
  {
  }

  lemma TableHighInKey()
    ensures RowInKey(MODE_TABLE[5], MODE_OFFSETS[5])
    ensures RowInKey(MODE_TABLE[6], MODE_OFFSETS[6])
  {
  }

  /** Each degree of each mode, raised by the mode's offset, is a degree of
      the major key. */
  lemma ModeDegreeInKey(mode: int, degree: int)
    requires 0 <= mode < 7 && 0 <= degree < 7
    ensures (MODE_TABLE[mode][degree] + MODE_OFFSETS[mode]) % 12 in MAJOR_PITCH_CLASSES
  {
    assert RowInKey(MODE_TABLE[mode], MODE_OFFSETS[mode]) by {
      TableLowInKey();
      TableMidInKey();
      TableHighInKey();
      assert mode == 0 || mode == 1 || mode == 2 || mode == 3 || mode == 4 || mode == 5 || mode == 6;
    }
  }

  /** With the seven-step major table, every note `NoteAt` gives is in the
      major key that `Schedule` sends to the VT-4. */
  lemma NoteAtInVt4Key(root: int, scale: int, value: int)
    ensures Modulo(NoteAt(root, scale, value) - 60 - KeyFor(root, scale), 12) in MAJOR_PITCH_CLASSES
  {
    var a, offset := ModeDegree(root, scale, value);
    KeyOffsetArithmetic(NoteAt(root, scale, value), root, offset, value / 7, a, KeyFor(root, scale));
  }

  /** The note of `value` is its octave plus a degree `a` of the mode, and
      the key is the root less the mode's `offset`, where `a` raised by
      `offset` is a degree of the major key. */
  lemma ModeDegree(root: int, scale: int, value: int) returns (a: int, offset: int)
    ensures NoteAt(root, scale, value) == root + (value / 7) * 12 + a
    ensures KeyFor(root, scale) == Modulo(Modulo(root - 60, 12) - offset, 12)
    ensures (a + offset) % 12 in MAJOR_PITCH_CLASSES
  {
    var mode := scale % 7;
    var degree := value % 7;
    a := MODE_TABLE[mode][degree];
    offset := MODE_OFFSETS[mode];
    NoteAtByMode(root, scale, value);
    KeyForByMode(root, scale);
    ModeDegreeInKey(mode, degree);
  }

  lemma KeyForByMode(root: int, scale: int)
    ensures KeyFor(root, scale) == Modulo(Modulo(root - 60, 12) - ModeOffset(scale % 7), 12)
  {
  }

  /** `NoteAt` through the mode reduced modulo seven. */
  lemma NoteAtByMode(root: int, scale: int, value: int)
    ensures NoteAt(root, scale, value) == root + (value / 7) * 12 + MODE_TABLE[scale % 7][value % 7]
  {
    ScaleNotesPeriodic(MAJOR_INTERVALS, scale, 6);
    ModeRow(scale % 7);
    PrefixIsDegree(MAJOR_INTERVALS, scale, 6, value % 7);
  }

  /** Moving a note and the key by the same offset, and either by whole
      octaves, keeps their distance modulo 12. */
  lemma KeyOffsetArithmetic(note: int, root: int, offset: int, octave: int, a: int, key: int)
    requires note == root + octave * 12 + a
    requires key == Modulo(Modulo(root - 60, 12) - offset, 12)
    ensures Modulo(note - 60 - key, 12) == (a + offset) % 12
  {
    var baseKey := (root - 60) % 12;
    var x := (root - 60) / 12;
    var y := (baseKey - offset) / 12;
    assert root - 60 == 12 * x + baseKey;
    assert baseKey - offset == 12 * y + key;
    assert note - 60 - key == (a + offset) + 12 * (x + octave + y);
    EuclideanShift(a + offset, 12, x + octave + y);
  }

  /** With the six-step table as written, a C major scale plays a B flat
      on its seventh degree while the VT-4 is set to C major. */
  lemma AsWrittenLeavesVt4Key(root: int)
    requires root % 12 == 0
    ensures KeyFor(root, 0) == 0
    ensures NoteAtAsWritten(root, 0, 6) == root + 10
    ensures Modulo(NoteAtAsWritten(root, 0, 6) - 60 - KeyFor(root, 0), 12) !in MAJOR_PITCH_CLASSES
  {
    AsWrittenModesCoincide();
    var key := KeyFor(root, 0);
    assert key == 0;
    var note := NoteAtAsWritten(root, 0, 6);
    assert note == root + 10;
    assert Modulo(note - 60 - key, 12) == 10;
  }

  /** `VT4Key`: sends control change 48 with the key whenever the key of
      the shared scale differs from the one last sent. */
  class VT4Key {
    var channel: int
    var scale: Scale
    var lastKey: Option<int>
    /** Every message sent to the VT-4, in order. */
    ghost var sent: seq<seq<int>>

    constructor (channel: int, scale: Scale)
      ensures this.channel == channel && this.scale == scale
      ensures lastKey == None && sent == []
    {
      this.channel := channel;
      this.scale := scale;
      lastKey := None;
      sent := [];
    }

    /** `schedule`: computes the key of the current scale and sends it if it
        is not the key last sent. */
    method Schedule(pos: MidiTime, length: MidiTime)
      modifies this
      ensures channel == old(channel) && scale == old(scale)
      ensures lastKey == Some(KeyFor(scale.root, scale.scale))
      ensures old(lastKey) == lastKey ==> sent == old(sent)
      ensures old(lastKey) != lastKey ==>
        sent == old(sent) + [[175 + channel, 48, KeyFor(scale.root, scale.scale)]]
    {
      var fromC := scale.root - 60;
      var baseKey := Modulo(fromC, 12);
      var offset := GetModeOffset(Modulo(scale.scale, 7));
      var key := AsU8(Modulo(baseKey - offset, 12));
      if Some(key) != lastKey {
        sent := sent + [[175 + channel, 48, key]];
        lastKey := Some(key);
      }
    }
  }
}
