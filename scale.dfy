/** The shared musical scale (root note and mode) and the shared key
    offset that every keyboard-like device reads when it turns a grid id
    into a note. */
module Scales {
  import opened RustInt

  /** The interval table `get_note_at` walks as written: six steps, rotated
      modulo six. */
  const AS_WRITTEN_INTERVALS: seq<int> := [2, 2, 1, 2, 2, 1]

  /** The major scale's seven steps, the table the VT-4 key follows. */
  const MAJOR_INTERVALS: seq<int> := [2, 2, 1, 2, 2, 2, 1]

  /** The first `count + 1` notes of the mode that starts at step `scale`
      of the interval table: `[0, i0, i0 + i1, ...]`. */
  function ScaleNotesPrefix(intervals: seq<int>, scale: int, count: nat): (notes: seq<int>)
    requires |intervals| > 0
    ensures |notes| == count + 1 && notes[0] == 0
    decreases count
  {
    if count == 0 then [0]
    else
      var previous := ScaleNotesPrefix(intervals, scale, count - 1);
      previous + [previous[count - 1] + intervals[Modulo(count - 1 + scale, |intervals|)]]
  }

  /** The seven notes of the mode: `scale_notes` after the loop. */
  function ScaleNotes(intervals: seq<int>, scale: int): seq<int>
    requires |intervals| > 0
  {
    ScaleNotesPrefix(intervals, scale, 6)
  }

  /** `get_note_at` over a given interval table: the octave of `value` (the
      floor of `value / 7`) and its degree within the mode, which is entry
      `value % 7` of the mode's notes (`PrefixIsDegree`). */
  function NoteFrom(intervals: seq<int>, root: int, scale: int, value: int): int
    requires |intervals| > 0
  {
    root + (value / 7) * 12 + Degree(intervals, scale, value % 7)
  }

  /** `get_note_at` exactly as the source writes it. */
  function NoteAtAsWritten(root: int, scale: int, value: int): (note: int)
    ensures value % 7 == 0 ==> note == root + 12 * (value / 7)
    ensures 0 <= note - root - 12 * (value / 7) <= 10
  {
    AsWrittenDegreeBound(scale, value % 7);
    NoteFrom(AS_WRITTEN_INTERVALS, root, scale, value)
  }

  /** `get_note_at` as evidently intended, with the seven-step major
      table; the keyboards send `NoteAtAsWritten`. */
  function NoteAt(root: int, scale: int, value: int): (note: int)
    ensures value % 7 == 0 ==> note == root + 12 * (value / 7)
    ensures 0 <= note - root - 12 * (value / 7) < 12
  {
    MajorDegreeBound(scale, value % 7);
    NoteFrom(MAJOR_INTERVALS, root, scale, value)
  }

  /** As written, the six-step table repeats every three steps, so modes 0
      and 3 coincide, and mode 0's seventh degree is a minor seventh. */
  lemma AsWrittenModesCoincide()
    ensures ScaleNotes(AS_WRITTEN_INTERVALS, 0) == [0, 2, 4, 5, 7, 9, 10]
    ensures ScaleNotes(AS_WRITTEN_INTERVALS, 3) == ScaleNotes(AS_WRITTEN_INTERVALS, 0)
    ensures NoteAtAsWritten(60, 0, 6) == 70
  {
  }

  /** With the major table mode 0 is the major scale; mode 5 is its
      relative minor. */
  lemma MajorModes()
    ensures ScaleNotes(MAJOR_INTERVALS, 0) == [0, 2, 4, 5, 7, 9, 11]
    ensures ScaleNotes(MAJOR_INTERVALS, 5) == [0, 2, 3, 5, 7, 8, 10]
    ensures NoteAt(60, 0, 6) == 71
  {
  }

  /** Every step of the major table is a rise. */
  lemma {:induction false} ScaleNotesRise(scale: int, count: nat, i: nat, j: nat)
    requires i < j <= count
    ensures ScaleNotesPrefix(MAJOR_INTERVALS, scale, count)[i] < ScaleNotesPrefix(MAJOR_INTERVALS, scale, count)[j]
    decreases count
  {
    var previous := ScaleNotesPrefix(MAJOR_INTERVALS, scale, count - 1);
    assert ScaleNotesPrefix(MAJOR_INTERVALS, scale, count)[..count] == previous;
    if j < count {
      ScaleNotesRise(scale, count - 1, i, j);
    } else if i < count - 1 {
      ScaleNotesRise(scale, count - 1, i, count - 1);
    }
  }

  /** Shifting the mode by a whole number of table lengths picks the
      same table step. */
  lemma StepPeriodic(k: int, scale: int, n: int)
    requires n > 0
    ensures Modulo(k + scale, n) == Modulo(k + scale % n, n)
  {
    assert k + scale == (k + scale % n) + n * (scale / n);
    EuclideanShift(k + scale % n, n, scale / n);
  }

  /** The mode depends on `scale` only modulo the table length. */
  lemma {:induction false} ScaleNotesPeriodic(intervals: seq<int>, scale: int, count: nat)
    requires |intervals| > 0
    ensures ScaleNotesPrefix(intervals, scale, count) == ScaleNotesPrefix(intervals, scale % |intervals|, count)
    decreases count
  {
    if count > 0 {
      ScaleNotesPeriodic(intervals, scale, count - 1);
      StepPeriodic(count - 1, scale, |intervals|);
    }
  }

  /** The `i`-th note of a mode as a plain sum of its first `i` steps. */
  function Degree(intervals: seq<int>, scale: int, i: nat): int
    requires |intervals| > 0
  {
    if i == 0 then 0 else Degree(intervals, scale, i - 1) + intervals[Modulo(i - 1 + scale, |intervals|)]
  }

  /** The notes the mode builds are those sums. */
  lemma {:induction false} PrefixIsDegree(intervals: seq<int>, scale: int, count: nat, i: nat)
    requires |intervals| > 0 && i <= count
    ensures ScaleNotesPrefix(intervals, scale, count)[i] == Degree(intervals, scale, i)
    decreases count
  {
    if i < count {
      PrefixIsDegree(intervals, scale, count - 1, i);
    } else if count > 0 {
      PrefixIsDegree(intervals, scale, count - 1, count - 1);
    }
  }

  /** Walking `c + 1` steps from mode `scale` is its first step followed by
      `c` steps of the next mode. */
  lemma {:induction false} DegreeShift(intervals: seq<int>, scale: int, c: nat)
    requires |intervals| > 0
    ensures Degree(intervals, scale, c + 1) == intervals[Modulo(scale, |intervals|)] + Degree(intervals, scale + 1, c)
  {
    if c > 0 {
      DegreeShift(intervals, scale, c - 1);
      assert c + scale == c - 1 + (scale + 1);
    }
  }

  /** A whole turn through the table adds up the same in every mode. */
  lemma {:induction false} FullTurn(intervals: seq<int>, scale: nat)
    requires |intervals| > 0
    ensures Degree(intervals, scale, |intervals|) == Degree(intervals, 0, |intervals|)
  {
    if scale > 0 {
      var n := |intervals|;
      FullTurn(intervals, scale - 1);
      DegreeShift(intervals, scale - 1, n);
      assert n + (scale - 1) == (scale - 1) + n * 1;
      EuclideanShift(scale - 1, n, 1);
    }
  }

  /** With positive steps, a later degree of a mode is always higher. */
  lemma {:induction false} DegreeRises(intervals: seq<int>, scale: int, i: nat, j: nat)
    requires |intervals| > 0 && forall k :: 0 <= k < |intervals| ==> intervals[k] > 0
    requires i < j
    ensures Degree(intervals, scale, i) < Degree(intervals, scale, j)
    decreases j
  {
    if i < j - 1 {
      DegreeRises(intervals, scale, i, j - 1);
    }
  }

  /** As written, the six steps of every mode add up to 10 semitones. */
  lemma AsWrittenSixSteps(scale: int)
    ensures Degree(AS_WRITTEN_INTERVALS, scale, 6) == 10
  {
    var s := scale % 6;
    PrefixIsDegree(AS_WRITTEN_INTERVALS, scale, 6, 6);
    ScaleNotesPeriodic(AS_WRITTEN_INTERVALS, scale, 6);
    PrefixIsDegree(AS_WRITTEN_INTERVALS, s, 6, 6);
    FullTurn(AS_WRITTEN_INTERVALS, s);
  }

  /** As written, every mode's first seven degrees lie between 0 and 10
      semitones. */
  lemma AsWrittenDegreeBound(scale: int, i: nat)
    requires i <= 6
    ensures 0 <= Degree(AS_WRITTEN_INTERVALS, scale, i) <= 10
  {
    assert forall k :: 0 <= k < 6 ==> AS_WRITTEN_INTERVALS[k] > 0;
    if i > 0 {
      DegreeRises(AS_WRITTEN_INTERVALS, scale, 0, i);
    }
    if i < 6 {
      DegreeRises(AS_WRITTEN_INTERVALS, scale, i, 6);
    }
    AsWrittenSixSteps(scale);
  }

  /** As written, a note lies between 0 and 10 semitones above its
      octave's root. */
  lemma AsWrittenDegreesInRange(root: int, scale: int, value: int)
    ensures 0 <= NoteAtAsWritten(root, scale, value) - root - 12 * (value / 7) <= 10
  {
    AsWrittenDegreeBound(scale, value % 7);
  }

  /** As written, a higher value still always gives a higher note. */
  lemma AsWrittenIncreasing(root: int, scale: int, value: int)
    ensures NoteAtAsWritten(root, scale, value) < NoteAtAsWritten(root, scale, value + 1)
  {
    if value % 7 < 6 {
      assert (value + 1) % 7 == value % 7 + 1 && (value + 1) / 7 == value / 7;
      assert forall k :: 0 <= k < 6 ==> AS_WRITTEN_INTERVALS[k] > 0;
      DegreeRises(AS_WRITTEN_INTERVALS, scale, value % 7, value % 7 + 1);
    } else {
      assert (value + 1) % 7 == 0 && (value + 1) / 7 == value / 7 + 1;
      AsWrittenDegreeBound(scale, 6);
    }
  }

  /** As written, the table has six entries, so scales `s` and `s + 6`
      play the same notes. */
  lemma AsWrittenPeriodSix(root: int, scale: int, value: int)
    ensures NoteAtAsWritten(root, scale + 6, value) == NoteAtAsWritten(root, scale, value)
  {
    var i := value % 7;
    PrefixIsDegree(AS_WRITTEN_INTERVALS, scale, 6, i);
    PrefixIsDegree(AS_WRITTEN_INTERVALS, scale + 6, 6, i);
    ScaleNotesPeriodic(AS_WRITTEN_INTERVALS, scale, 6);
    ScaleNotesPeriodic(AS_WRITTEN_INTERVALS, scale + 6, 6);
    assert (scale + 6) % 6 == scale % 6;
  }

  /** Every major mode spans less than an octave: its seven steps add up
      to an octave, so its first six, which leave out a step of at least a
      semitone, add up to less. */
  lemma ModeSpansLessThanOctave(scale: int)
    ensures ScaleNotes(MAJOR_INTERVALS, scale)[6] < 12
  {
    var s := scale % 7;
    assert ScaleNotesPrefix(MAJOR_INTERVALS, 0, 7)[7] == 12;
    PrefixIsDegree(MAJOR_INTERVALS, 0, 7, 7);
    FullTurn(MAJOR_INTERVALS, s);
    assert forall k :: 0 <= k < 7 ==> MAJOR_INTERVALS[k] >= 1;
    PrefixIsDegree(MAJOR_INTERVALS, s, 6, 6);
    ScaleNotesPeriodic(MAJOR_INTERVALS, scale, 6);
  }

  /** With the major table, every mode's first seven degrees lie less than
      an octave above its root. */
  lemma MajorDegreeBound(scale: int, i: nat)
    requires i <= 6
    ensures 0 <= Degree(MAJOR_INTERVALS, scale, i) < 12
  {
    assert forall k :: 0 <= k < 7 ==> MAJOR_INTERVALS[k] > 0;
    if i > 0 {
      DegreeRises(MAJOR_INTERVALS, scale, 0, i);
    }
    if i < 6 {
      DegreeRises(MAJOR_INTERVALS, scale, i, 6);
    }
    ModeSpansLessThanOctave(scale);
    PrefixIsDegree(MAJOR_INTERVALS, scale, 6, 6);
  }

  /** One step up the grid is one step up the scale: a higher value always
      gives a higher note. */
  lemma NoteAtIncreasing(root: int, scale: int, value: int)
    ensures NoteAt(root, scale, value) < NoteAt(root, scale, value + 1)
  {
    if value % 7 < 6 {
      assert (value + 1) % 7 == value % 7 + 1 && (value + 1) / 7 == value / 7;
      ScaleNotesRise(scale, 6, value % 7, value % 7 + 1);
      PrefixIsDegree(MAJOR_INTERVALS, scale, 6, value % 7);
      PrefixIsDegree(MAJOR_INTERVALS, scale, 6, value % 7 + 1);
    } else {
      assert (value + 1) % 7 == 0 && (value + 1) / 7 == value / 7 + 1;
      ModeSpansLessThanOctave(scale);
      PrefixIsDegree(MAJOR_INTERVALS, scale, 6, 6);
    }
  }

  /** With the major table too, value 0 plays the root and seven steps up
      the grid is one octave up. */
  lemma NoteAtOctave(root: int, scale: int, value: int)
    ensures NoteAt(root, scale, 0) == root
    ensures NoteAt(root, scale, value + 7) == NoteAt(root, scale, value) + 12
  {
    assert (value + 7) % 7 == value % 7 && (value + 7) / 7 == value / 7 + 1;
  }

  /** As written, value 0 plays the root itself. */
  lemma AsWrittenRootAtZero(root: int, scale: int)
    ensures NoteAtAsWritten(root, scale, 0) == root
  {
  }

  /** As written, seven steps up the grid is still one octave up. */
  lemma AsWrittenOctave(root: int, scale: int, value: int)
    ensures NoteAtAsWritten(root, scale, value + 7) == NoteAtAsWritten(root, scale, value) + 12
  {
    assert (value + 7) % 7 == value % 7 && (value + 7) / 7 == value / 7 + 1;
  }

  /** The note a keyboard sends for scale degree `degree`: the scale note
      moved by `pitch` semitones and `oct` octaves, cut to a byte by
      `as u8`. */
  function PlayedNote(root: int, scale: int, degree: int, pitch: int, oct: int): (note: int)
    ensures 0 <= note < 256
  {
    AsU8(NoteAtAsWritten(root, scale, degree) + pitch + oct * 12)
  }

  /** With no pitch or octave shift and a scale note already in byte
      range, the keyboard plays the scale note itself. */
  lemma PlayedNoteIsScaleNote(root: int, scale: int, degree: int)
    requires 0 <= NoteAtAsWritten(root, scale, degree) < 256
    ensures PlayedNote(root, scale, degree, 0, 0) == NoteAtAsWritten(root, scale, degree)
  {
  }

  /** Seven degrees up plays the same as one octave up. */
  lemma PlayedNoteWeek(root: int, scale: int, degree: int, pitch: int, oct: int)
    ensures PlayedNote(root, scale, degree + 7, pitch, oct) == PlayedNote(root, scale, degree, pitch, oct + 1)
  {
    AsWrittenOctave(root, scale, degree);
    assert NoteAtAsWritten(root, scale, degree + 7) + pitch + oct * 12
        == NoteAtAsWritten(root, scale, degree) + pitch + (oct + 1) * 12;
  }

  /** One more octave raises the played note by twelve, modulo the byte
      cut. */
  lemma PlayedNoteOctave(root: int, scale: int, degree: int, pitch: int, oct: int)
    ensures PlayedNote(root, scale, degree, pitch, oct + 1)
         == (PlayedNote(root, scale, degree, pitch, oct) + 12) % 256
  {
    var n := NoteAtAsWritten(root, scale, degree) + pitch + oct * 12;
    assert n + (oct + 1) * 12 - oct * 12 == n + 12;
    var q := n / 256;
    assert n == 256 * q + n % 256;
    assert n + 12 == (n % 256 + 12) + 256 * q;
    EuclideanShift(n % 256 + 12, 256, q);
  }

  /** The shared `Scale`: root note and mode, plus the `offset` field the
      root-offset chunk writes. */
  class Scale {
    var root: int
    var scale: int
    var offset: int

    constructor (root: int, scale: int)
      ensures this.root == root && this.scale == scale && offset == 0
    {
      this.root := root;
      this.scale := scale;
      this.offset := 0;
    }

    /** `get_note_at`: builds the mode's seven notes from the six-step
        table, then picks the octave and degree of `value`. */
    method GetNoteAt(value: int) returns (note: int)
      ensures note == NoteAtAsWritten(root, scale, value)
    {
      var scaleNotes := BuildScaleNotes(AS_WRITTEN_INTERVALS, scale);
      PrefixIsDegree(AS_WRITTEN_INTERVALS, scale, 6, value % 7);
      var length := |scaleNotes|;
      var interval := scaleNotes[Modulo(value, length)];
      var octave := value / length;
      note := root + octave * 12 + interval;
    }

    /** The loop of `get_note_at`: each note is the previous one plus the
        next step of the table, starting at step `scale`. */
    static method BuildScaleNotes(intervals: seq<int>, scale: int) returns (scaleNotes: seq<int>)
      requires |intervals| > 0
      ensures scaleNotes == ScaleNotes(intervals, scale)
    {
      scaleNotes := [0];
      var lastValue := 0;
      var i := 0;
      while i < 6
        invariant 0 <= i <= 6
        invariant scaleNotes == ScaleNotesPrefix(intervals, scale, i)
        invariant lastValue == scaleNotes[i]
      {
        lastValue := lastValue + intervals[Modulo(i + scale, |intervals|)];
        scaleNotes := scaleNotes + [lastValue];
        i := i + 1;
      }
    }

    /** `get_note_at` followed by the keyboards' shift by `pitch` semitones
        and `oct` octaves and their `as u8` cut. */
    method PlayedNoteAt(degree: int, pitch: int, oct: int) returns (note: int)
      ensures note == PlayedNote(root, scale, degree, pitch, oct)
    {
      var scaled := GetNoteAt(degree);
      note := AsU8(scaled + pitch + oct * 12);
    }
  }

  /** The shared key `Offset`: octave, third, scale offset, pitch and the
      `base` degree the devices add. */
  class Offset {
    var oct: int
    var third: int
    var offset: int
    var pitch: int
    var base: int

    constructor (oct: int)
      ensures this.oct == oct && third == 0 && offset == 0 && pitch == 0 && base == 0
    {
      this.oct := oct;
      third := 0;
      offset := 0;
      pitch := 0;
      base := 0;
    }
  }
}
