/** Transforms stacked on a trigger (value, repeat, range, none) and how a
    newer transform combines with the one below it. */
module LoopTransforms {
  import opened MidiTimes
  import opened OutputValues
  import RustInt

  datatype LoopTransform =
    | Value(value: OutputValue)
    | Repeat(rate: MidiTime, offset: MidiTime, repeatValue: OutputValue)
    | Range(pos: MidiTime, length: MidiTime)
    | None

  /** `Ord::max` of the derived order. */
  function Max(a: MidiTime, b: MidiTime): (r: MidiTime)
    ensures MidiTimes.LessEq(a, r) && MidiTimes.LessEq(b, r) && (r == a || r == b)
  {
    if MidiTimes.Less(b, a) then a else b
  }

  /** The source takes the position modulo the previous range's length, so
      a range over a range needs that length to have whole ticks. */
  predicate CanApply(t: LoopTransform, previous: LoopTransform)
  {
    t.Range? && previous.Range? ==> previous.length.ticks != 0
  }

  /** `apply`: `None` passes the previous transform through; a range over a
      repeat keeps the repeat at a rate no shorter than the range; a range
      over a range replays the earlier range's position with the new
      length; everything else replaces what was below. */
  function Apply(t: LoopTransform, previous: LoopTransform): (r: LoopTransform)
    requires CanApply(t, previous)
    ensures t.None? ==> r == previous
    ensures !t.None? && !t.Range? ==> r == t
    ensures t.Range? && previous.Repeat? ==>
      r.Repeat? && r.offset == previous.offset && r.repeatValue == previous.repeatValue
      && MidiTimes.LessEq(previous.rate, r.rate) && MidiTimes.LessEq(t.length, r.rate)
    ensures t.Range? && previous.Range? ==> r.Range? && r.length == t.length
    ensures t.Range? && !previous.Repeat? && !previous.Range? ==> r == t
  {
    match t
    case Range(pos, length) =>
      (match previous
       case Repeat(rate, offset, value) => Repeat(Max(rate, length), offset, value)
       case Range(previousPos, previousLength) =>
         var playbackOffset := Rem(pos, previousLength);
         var playbackPos := Add(previousPos, Rem(Sub(pos, playbackOffset), previousLength));
         Range(playbackPos, length)
       case _ => t)
    case None => previous
    case _ => t
  }

  /** A range over a range starts where the earlier range starts: the
      position minus its own remainder is a whole number of the earlier
      length, whose remainder is zero. */
  lemma {:induction false} RangeOverRangeKeepsPosition(pos: MidiTime, length: MidiTime,
                                                       previousPos: MidiTime, previousLength: MidiTime)
    requires previousLength.ticks != 0 && Valid(previousPos)
    ensures Apply(Range(pos, length), Range(previousPos, previousLength)) == Range(previousPos, length)
  {
    ApplyRangeOverRange(pos, length, previousPos, previousLength);
    PlaybackReturnsToStart(pos, previousLength);
    assert Add(previousPos, MidiTime(0, 0)) == previousPos;
  }

  /** The position minus its remainder is a whole number of the modulus. */
  lemma PlaybackReturnsToStart(pos: MidiTime, modulus: MidiTime)
    requires modulus.ticks != 0
    ensures Rem(Sub(pos, Rem(pos, modulus)), modulus) == MidiTime(0, 0)
  {
    var offsetTicks := RustInt.Modulo(pos.ticks, modulus.ticks);
    RemKeepsSubTicks(pos, modulus);
    SubOwnRemainder(pos, offsetTicks);
    RustInt.ModuloOfDifference(pos.ticks, modulus.ticks);
    RemOfMultiple(pos.ticks - offsetTicks, modulus);
  }

  lemma ApplyRangeOverRange(pos: MidiTime, length: MidiTime, previousPos: MidiTime, previousLength: MidiTime)
    requires previousLength.ticks != 0
    ensures Apply(Range(pos, length), Range(previousPos, previousLength))
         == Range(Add(previousPos, Rem(Sub(pos, Rem(pos, previousLength)), previousLength)), length)
  {
  }

  lemma RemKeepsSubTicks(pos: MidiTime, modulus: MidiTime)
    requires modulus.ticks != 0
    ensures Rem(pos, modulus) == MidiTime(RustInt.Modulo(pos.ticks, modulus.ticks), pos.subTicks)
  {
  }

  lemma SubOwnRemainder(pos: MidiTime, offsetTicks: int)
    ensures Sub(pos, MidiTime(offsetTicks, pos.subTicks)) == MidiTime(pos.ticks - offsetTicks, 0)
  {
  }

  lemma RemOfMultiple(n: int, modulus: MidiTime)
    requires modulus.ticks != 0 && RustInt.Modulo(n, modulus.ticks) == 0
    ensures Rem(MidiTime(n, 0), modulus) == MidiTime(0, 0)
  {
  }

  /** `is_active`: everything but `None` and an `Off` value. */
  function IsActive(t: LoopTransform): (b: bool)
    ensures !b <==> t.None? || t == Value(Off)
  {
    match t
    case Value(Off) => false
    case None => false
    case _ => true
  }

  /** Stacking `None` on top changes nothing, and anything other than a
      range or `None` hides what is below it. */
  lemma ApplyLaws(t: LoopTransform, previous: LoopTransform)
    requires CanApply(t, previous)
    ensures Apply(None, previous) == previous
    ensures !t.Range? && !t.None? ==> Apply(t, previous) == Apply(t, None)
    ensures t.Range? ==> Apply(t, None) == t
  {
  }
}
