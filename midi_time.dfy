/** `MidiTime`: a position or length in MIDI clock ticks (24 per beat), each
    tick split into `SUB_TICKS` sub-ticks. */
module MidiTimes {
  import opened RustInt

  const SUB_TICKS: int := 4
  const TICKS_PER_BEAT: int := 24

  /** The struct's two fields; `subTicks` is a `u8`. The derived ordering is
      lexicographic on (`ticks`, `subTicks`). */
  datatype MidiTime = MidiTime(ticks: int, subTicks: U8)

  /** Every constructor and operator of the source keeps `subTicks` below
      `SUB_TICKS`. */
  predicate Valid(t: MidiTime)
  {
    t.subTicks < SUB_TICKS
  }

  /** The time measured in sub-ticks. */
  function Total(t: MidiTime): int
  {
    t.ticks * SUB_TICKS + t.subTicks
  }

  /** The derived `Ord`: ticks first, then sub-ticks. */
  predicate Less(a: MidiTime, b: MidiTime)
  {
    a.ticks < b.ticks || (a.ticks == b.ticks && a.subTicks < b.subTicks)
  }

  predicate LessEq(a: MidiTime, b: MidiTime)
  {
    Less(a, b) || a == b
  }

  function FromTicks(ticks: int): (r: MidiTime)
    ensures Valid(r) && Total(r) == ticks * SUB_TICKS
  {
    MidiTime(ticks, 0)
  }

  function FromSubTicks(subTicks: U8): (r: MidiTime)
    ensures Valid(r) && Total(r) == subTicks
  {
    MidiTime(subTicks / SUB_TICKS, subTicks % SUB_TICKS)
  }

  /** `MidiTime::new` folds sub-tick overflow into whole ticks. */
  function New(ticks: int, subTicks: U8): (r: MidiTime)
    ensures Valid(r)
    ensures Total(r) == ticks * SUB_TICKS + subTicks
  {
    if subTicks >= SUB_TICKS then Add(MidiTime(ticks, 0), FromSubTicks(subTicks))
    else MidiTime(ticks, subTicks)
  }

  function Zero(): MidiTime { FromTicks(0) }

  function Tick(): MidiTime { FromTicks(1) }

  function HalfTick(): (r: MidiTime)
    ensures Valid(r) && Total(r) * 2 == Total(Tick())
  {
    FromSubTicks(SUB_TICKS / 2)
  }

  function FromBeats(beats: int): (r: MidiTime)
    ensures Valid(r) && r.ticks == beats * TICKS_PER_BEAT
  {
    FromTicks(beats * TICKS_PER_BEAT)
  }

  /** `beats` divided by `divider`, in whole ticks, rounded toward zero. */
  function FromMeasure(beats: int, divider: int): (r: MidiTime)
    requires divider != 0
    ensures Valid(r) && r.subTicks == 0
    ensures beats >= 0 && divider > 0 ==>
      r.ticks * divider <= beats * TICKS_PER_BEAT < (r.ticks + 1) * divider
  {
    var ticks := TruncDiv(beats * TICKS_PER_BEAT, divider);
    if beats >= 0 && divider > 0 then
      TruncNonNegative(beats * TICKS_PER_BEAT, divider);
      FromTicks(ticks)
    else FromTicks(ticks)
  }

  /** `get_quantize_grid`: half a beat for short lengths, a beat for medium
      ones, two beats otherwise. */
  function QuantizeGrid(lengthTicks: int): (grid: int)
    ensures grid in {12, 24, 48}
    ensures grid == 12 <==> lengthTicks < 16
    ensures grid == 48 <==> lengthTicks >= 40
  {
    if lengthTicks < TICKS_PER_BEAT - 8 then TICKS_PER_BEAT / 2
    else if lengthTicks < TICKS_PER_BEAT + 16 then TICKS_PER_BEAT
    else TICKS_PER_BEAT * 2
  }

  /** `f64::round` of `n / d` (halves away from zero), computed on integers. */
  function RoundDiv(n: int, d: int): (q: int)
    requires d > 0
    ensures 2 * (n - q * d) <= d && -d <= 2 * (n - q * d)
    ensures n >= 0 ==> 2 * (n - q * d) < d
    ensures n < 0 ==> -d < 2 * (n - q * d)
  {
    if n >= 0 then (2 * n + d) / (2 * d) else -((2 * -n + d) / (2 * d))
  }

  /** `quantize_length`: the nearest multiple of the grid, in whole ticks. */
  function QuantizeLength(length: MidiTime): (r: MidiTime)
    ensures Valid(r) && r.subTicks == 0
    ensures r.ticks % QuantizeGrid(length.ticks) == 0
    ensures var g := QuantizeGrid(length.ticks);
      -g <= 2 * (length.ticks - r.ticks) <= g
  {
    var grid := QuantizeGrid(length.ticks);
    FromTicks(RoundDiv(length.ticks, grid) * grid)
  }

  /** `half`, as written: halves ticks and sub-ticks with Rust's truncating
      division, carrying half a tick into the sub-ticks when ticks are odd. */
  function Half(t: MidiTime): (r: MidiTime)
    ensures Valid(t) && t.ticks >= 0 ==> Valid(r) && Total(r) == Total(t) / 2
  {
    var r :=
      if TruncRem(t.ticks, 2) == 0 then
        MidiTime(TruncDiv(t.ticks, 2), t.subTicks / 2)
      else
        var subTicks := t.subTicks / 2 + SUB_TICKS / 2;
        var ticks := t.ticks + TruncDiv(subTicks, SUB_TICKS);
        MidiTime(TruncDiv(ticks, 2), AsU8(subTicks));
    if t.ticks >= 0 then
      TruncNonNegative(t.ticks, 2);
      TruncNonNegative(t.subTicks / 2 + SUB_TICKS / 2, SUB_TICKS);
      r
    else r
  }

  /** For a negative odd tick count the truncating division rounds the
      wrong way: half of minus one tick comes out as plus half a tick. */
  lemma HalfOfNegativeOddTicks()
    ensures Half(MidiTime(-1, 0)) == MidiTime(0, 2)
    ensures Total(Half(MidiTime(-1, 0))) != Total(MidiTime(-1, 0)) / 2
  {
  }

  /** Half of a time, rounded down to a sub-tick, for every sign. */
  function HalfFloor(t: MidiTime): (r: MidiTime)
    requires Valid(t)
    ensures Valid(r) && Total(r) == Total(t) / 2
  {
    var half := Total(t) / 2;
    MidiTime(half / SUB_TICKS, half % SUB_TICKS)
  }

  /** The two agree on the times the looper halves (lengths and rates). */
  lemma HalfAgreesForNonNegative(t: MidiTime)
    requires Valid(t) && t.ticks >= 0
    ensures Half(t) == HalfFloor(t)
  {
    var r := Half(t);
    var h := Total(t) / 2;
    assert Total(r) == h && Valid(r);
    EuclideanUnique(h, SUB_TICKS, r.ticks, r.subTicks);
  }

  function IsZero(t: MidiTime): (b: bool)
    ensures Valid(t) ==> (b <==> Total(t) == 0)
  {
    t.ticks == 0 && t.subTicks == 0
  }

  /** On a beat boundary: no sub-ticks and a tick count divisible by 24. */
  function IsWholeBeat(t: MidiTime): (b: bool)
    ensures b <==> t.subTicks == 0 && t.ticks % TICKS_PER_BEAT == 0
  {
    TruncRemZero(t.ticks, TICKS_PER_BEAT);
    t.subTicks == 0 && TruncRem(t.ticks, TICKS_PER_BEAT) == 0
  }

  /** Rust's `%` is zero exactly when the divisor divides. */
  lemma TruncRemZero(n: int, m: int)
    requires m > 0
    ensures TruncRem(n, m) == 0 <==> n % m == 0
  {
    if n % m == 0 {
      TruncRemOfDivisible(n, m);
    } else if TruncRem(n, m) == 0 {
      DivisibleOfTruncRem(n, m);
    }
  }

  lemma TruncRemOfDivisible(n: int, m: int)
    requires m > 0 && n % m == 0
    ensures TruncRem(n, m) == 0
  {
    var k := n / m;
    assert n == m * k;
    ModuloOfMultiple(k, m);
  }

  lemma DivisibleOfTruncRem(n: int, m: int)
    requires m > 0 && TruncRem(n, m) == 0
    ensures n % m == 0
  {
    TruncRemBounds(n, m);
    EuclideanUnique(n, m, TruncDiv(n, m), 0);
  }

  /** `round`: to the nearest whole tick, half a tick rounding up. */
  function Round(t: MidiTime): (r: MidiTime)
    ensures r.subTicks == 0
    ensures Valid(t) ==> -SUB_TICKS / 2 < Total(r) - Total(t) <= SUB_TICKS / 2
  {
    if t.subTicks < SUB_TICKS / 2 then MidiTime(t.ticks, 0) else MidiTime(t.ticks + 1, 0)
  }

  /** `floor`: the whole tick at or before the time. */
  function Floor(t: MidiTime): (r: MidiTime)
    ensures r.subTicks == 0
    ensures Valid(t) ==> Total(r) <= Total(t) < Total(r) + SUB_TICKS
  {
    FromTicks(t.ticks)
  }

  /** `quantize`: the ticks rounded toward zero to a multiple of the block's
      ticks (the block's sub-ticks are ignored). */
  function Quantize(t: MidiTime, block: MidiTime): (r: MidiTime)
    requires block.ticks != 0
    ensures r.subTicks == 0 && TruncRem(r.ticks, block.ticks) == 0
    ensures t.ticks >= 0 && block.ticks > 0 ==> r.ticks <= t.ticks < r.ticks + block.ticks
  {
    var q := TruncDiv(t.ticks, block.ticks);
    ModuloOfMultiple(q, block.ticks);
    assert q * block.ticks == block.ticks * q;
    if t.ticks >= 0 && block.ticks > 0 then
      TruncNonNegative(t.ticks, block.ticks);
      FromTicks(q * block.ticks)
    else FromTicks(q * block.ticks)
  }

  /** `Sub`: borrows a tick when the sub-ticks would go negative. */
  function Sub(a: MidiTime, b: MidiTime): (r: MidiTime)
    ensures Valid(r)
    ensures Valid(a) && Valid(b) ==> Total(r) == Total(a) - Total(b)
  {
    var ticks := if a.subTicks < b.subTicks then a.ticks - b.ticks - 1 else a.ticks - b.ticks;
    MidiTime(ticks, Modulo(a.subTicks - b.subTicks, SUB_TICKS))
  }

  /** `Add`: carries a tick when the sub-ticks reach `SUB_TICKS`. The `u8`
      sum of the sub-ticks must not overflow. */
  function Add(a: MidiTime, b: MidiTime): (r: MidiTime)
    requires a.subTicks + b.subTicks < 256
    ensures Valid(r)
    ensures Valid(a) && Valid(b) ==> Total(r) == Total(a) + Total(b)
  {
    var ticks := if a.subTicks + b.subTicks >= SUB_TICKS then a.ticks + b.ticks + 1 else a.ticks + b.ticks;
    MidiTime(ticks, (a.subTicks + b.subTicks) % SUB_TICKS)
  }

  /** `Mul<i32>`: scales the whole ticks and drops the sub-ticks. */
  function Mul(t: MidiTime, k: int): (r: MidiTime)
    ensures Valid(r) && Total(r) == Total(Floor(t)) * k
  {
    FromTicks(t.ticks * k)
  }

  /** `Div<i32>`: divides the whole ticks, rounding toward zero, and drops
      the sub-ticks. */
  function Div(t: MidiTime, k: int): (r: MidiTime)
    requires k != 0
    ensures Valid(r) && r.subTicks == 0
    ensures t.ticks >= 0 && k > 0 ==> r.ticks * k <= t.ticks < (r.ticks + 1) * k
  {
    if t.ticks >= 0 && k > 0 then
      TruncNonNegative(t.ticks, k);
      FromTicks(TruncDiv(t.ticks, k))
    else FromTicks(TruncDiv(t.ticks, k))
  }

  /** `Rem`: the ticks taken modulo the modulus's ticks with the sign of
      the modulus; the sub-ticks are kept and the modulus's are ignored. */
  function Rem(t: MidiTime, modulus: MidiTime): (r: MidiTime)
    requires modulus.ticks != 0
    ensures r.subTicks == t.subTicks
    ensures modulus.ticks > 0 ==> 0 <= r.ticks < modulus.ticks && r.ticks == t.ticks % modulus.ticks
  {
    MidiTime(Modulo(t.ticks, modulus.ticks), t.subTicks)
  }

  /** The derived order agrees with the order of the times they denote. */
  lemma LessMatchesTotal(a: MidiTime, b: MidiTime)
    requires Valid(a) && Valid(b)
    ensures Less(a, b) <==> Total(a) < Total(b)
    ensures a == b <==> Total(a) == Total(b)
  {
  }

  /** Subtraction undoes addition. */
  lemma SubUndoesAdd(a: MidiTime, b: MidiTime)
    requires Valid(a) && Valid(b)
    ensures Sub(Add(a, b), b) == a
  {
    var s := Sub(Add(a, b), b);
    assert Total(s) == Total(a);
    LessMatchesTotal(s, a);
  }

  /** Addition undoes subtraction. */
  lemma AddUndoesSub(a: MidiTime, b: MidiTime)
    requires Valid(a) && Valid(b)
    ensures Add(Sub(a, b), b) == a
  {
    var s := Add(Sub(a, b), b);
    assert Total(s) == Total(a);
    LessMatchesTotal(s, a);
  }

  /** Unit tests of the source that agree with four sub-ticks per tick. */
  lemma SourceExamples()
    ensures Add(New(0, 3), New(0, 1)) == MidiTime(1, 0)
    ensures FromSubTicks(4) == MidiTime(1, 0)
    ensures Half(FromBeats(4)) == MidiTime(48, 0)
  {
  }

  lemma SourceSubExample()
    ensures Sub(New(1, 0), New(0, 1)) == MidiTime(0, 3)
  {
  }

  /** The source's `add` test was written for eight sub-ticks per tick and
      expects `{150, 7}`; with four the sum carries a tick. */
  lemma SourceAddTestAssumesEightSubTicks()
    ensures Add(MidiTime(100, 4), MidiTime(50, 3)) == MidiTime(151, 3)
  {
  }
}
