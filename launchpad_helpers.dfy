/** The free helpers of the Launchpad loop grid: trigger modes, the pad
    layout, change detection on held values, set differences of active
    ids, repeat scheduling, powers of two and the velocity curve that
    tames the pads' sensitivity. */
module LoopGridLaunchpad {
  import opened RustInt
  import opened Prelude
  import opened MidiTimes
  import opened OutputValues
  import Chunk

  /** Pads pressed more softly than this are ignored. */
  const VELOCITY_THRESHOLD: int := 20

  /** How a pressed pad starts its loop or repeat. */
  datatype TriggerMode = Immediate | Quantized | Repeat | Cycle

  /** The buttons a remote controller can forward to the grid. */
  datatype LoopGridRemoteEvent =
    | DoubleButton(pressed: bool)
    | LoopButton(pressed: bool)
    | SustainButton(pressed: bool)

  /** The discriminant of a trigger mode. */
  function ToId(mode: TriggerMode): (id: nat)
    ensures id < 4
  {
    match mode
    case Immediate => 0
    case Quantized => 1
    case Repeat => 2
    case Cycle => 3
  }

  /** `TriggerMode::from_id`: ids 1 to 3 name a mode; anything else is
      `Immediate`. */
  function FromId(id: nat): (mode: TriggerMode)
    ensures id < 4 ==> ToId(mode) == id
    ensures id >= 4 ==> mode == Immediate
  {
    if id == 1 then Quantized
    else if id == 2 then Repeat
    else if id == 3 then Cycle
    else Immediate
  }

  /** Every mode survives a trip through its id. */
  lemma TriggerModeRoundTrip(mode: TriggerMode)
    ensures FromId(ToId(mode)) == mode
  {
  }

  /** The repeat rates offered on the grid: two bars down to a 32nd note. */
  const REPEAT_RATES: seq<MidiTime> := [
    FromMeasure(2, 1), FromMeasure(1, 1), FromMeasure(2, 3), FromMeasure(1, 2),
    FromMeasure(1, 3), FromMeasure(1, 4), FromMeasure(1, 6), FromMeasure(1, 8)
  ]

  /** Every repeat rate is a positive whole number of ticks, as
      `NextRepeatInWindow` needs. */
  lemma RepeatRatesArePositive()
    ensures |REPEAT_RATES| == 8
    ensures forall i :: 0 <= i < 8 ==> REPEAT_RATES[i].ticks > 0 && REPEAT_RATES[i].subTicks == 0
  {
    assert REPEAT_RATES[0].ticks == 48 && REPEAT_RATES[1].ticks == 24;
    assert REPEAT_RATES[2].ticks == 16 && REPEAT_RATES[3].ticks == 12;
    assert REPEAT_RATES[4].ticks == 8 && REPEAT_RATES[5].ticks == 6;
    assert REPEAT_RATES[6].ticks == 4 && REPEAT_RATES[7].ticks == 3;
  }

  /** `maybe_update`: always stores `newValue`, and reports it only when the
      key is new or its on/off state flips, so aftertouch on a held pad
      does not trigger twice. The map the source updates in place is
      returned. */
  method MaybeUpdate(values: map<nat, OutputValue>, key: nat, newValue: OutputValue)
    returns (updated: map<nat, OutputValue>, changed: Option<OutputValue>)
    ensures updated == values[key := newValue]
    ensures changed.Some? <==> key !in values || IsOn(values[key]) != IsOn(newValue)
    ensures changed.Some? ==> changed.value == newValue
  {
    if key in values {
      var oldValue := values[key];
      updated := values[key := newValue];
      if IsOn(oldValue) != IsOn(newValue) {
        changed := Some(newValue);
      } else {
        changed := None;
      }
    } else {
      updated := values[key := newValue];
      changed := Some(newValue);
    }
  }

  /** The Launchpad's note number for the pad in grid row `row` (counted
      from the top) and column `col`. */
  function GridMidi(row: int, col: int): int
  {
    (8 - row) * 10 + col + 1
  }

  /** A note number that names one of the 64 pads: tens digit and units
      digit both between 1 and 8. */
  predicate IsPadMidi(midi: int)
  {
    0 <= midi && 1 <= midi / 10 <= 8 && 1 <= midi % 10 <= 8
  }

  /** The grid id of a pad's note number. */
  function MidiId(midi: int): int
  {
    (8 - midi / 10) * 8 + midi % 10 - 1
  }

  lemma PadDigits(row: int, col: int)
    requires 0 <= row < 8 && 0 <= col < 8
    ensures IsPadMidi(GridMidi(row, col)) && MidiId(GridMidi(row, col)) == Chunk.IdFrom(row, col)
  {
    var midi := GridMidi(row, col);
    EuclideanUnique(midi, 10, 8 - row, col + 1);
  }

  lemma PadMidiRoundTrip(midi: int)
    requires IsPadMidi(midi)
    ensures 0 <= MidiId(midi) < 64
    ensures GridMidi(MidiId(midi) / 8, MidiId(midi) % 8) == midi
  {
    var row := 8 - midi / 10;
    var col := midi % 10 - 1;
    EuclideanUnique(MidiId(midi), 8, row, col);
  }

  /** `get_grid_map`: fills both directions of the pad layout, row by row.
      The two maps are inverse bijections between the ids 0 to 63 and the
      64 pad notes. */
  method GetGridMap() returns (midiToId: map<int, int>, idToMidi: map<int, int>)
    ensures forall id :: id in idToMidi <==> 0 <= id < 64
    ensures forall id :: id in idToMidi ==> idToMidi[id] == GridMidi(id / 8, id % 8)
    ensures forall midi :: midi in midiToId <==> IsPadMidi(midi)
    ensures forall midi :: midi in midiToId ==> midiToId[midi] in idToMidi && idToMidi[midiToId[midi]] == midi
    ensures forall id :: id in idToMidi ==> idToMidi[id] in midiToId && midiToId[idToMidi[id]] == id
  {
    midiToId := map[];
    idToMidi := map[];
    for r := 0 to 8
      invariant forall id :: id in idToMidi <==> 0 <= id < r * 8
      invariant forall id :: id in idToMidi ==> idToMidi[id] == GridMidi(id / 8, id % 8)
      invariant forall midi :: midi in midiToId <==> IsPadMidi(midi) && MidiId(midi) < r * 8
      invariant forall midi :: midi in midiToId ==> midiToId[midi] == MidiId(midi)
    {
      midiToId, idToMidi := FillRow(r, midiToId, idToMidi);
    }
    GridMapsInverse(midiToId, idToMidi);
  }

  /** One row of `get_grid_map`: the row's eight pads enter both maps. */
  method FillRow(r: int, midiToId0: map<int, int>, idToMidi0: map<int, int>)
    returns (midiToId: map<int, int>, idToMidi: map<int, int>)
    requires 0 <= r < 8
    requires forall id :: id in idToMidi0 <==> 0 <= id < r * 8
    requires forall id :: id in idToMidi0 ==> idToMidi0[id] == GridMidi(id / 8, id % 8)
    requires forall midi :: midi in midiToId0 <==> IsPadMidi(midi) && MidiId(midi) < r * 8
    requires forall midi :: midi in midiToId0 ==> midiToId0[midi] == MidiId(midi)
    ensures forall id :: id in idToMidi <==> 0 <= id < r * 8 + 8
    ensures forall id :: id in idToMidi ==> idToMidi[id] == GridMidi(id / 8, id % 8)
    ensures forall midi :: midi in midiToId <==> IsPadMidi(midi) && MidiId(midi) < r * 8 + 8
    ensures forall midi :: midi in midiToId ==> midiToId[midi] == MidiId(midi)
  {
    midiToId, idToMidi := midiToId0, idToMidi0;
    for c := 0 to 8
      invariant forall id :: id in idToMidi <==> 0 <= id < r * 8 + c
      invariant forall id :: id in idToMidi ==> idToMidi[id] == GridMidi(id / 8, id % 8)
      invariant forall midi :: midi in midiToId <==> IsPadMidi(midi) && MidiId(midi) < r * 8 + c
      invariant forall midi :: midi in midiToId ==> midiToId[midi] == MidiId(midi)
    {
      var midi := AsU8((8 - r) * 10 + c + 1);
      var id := r * 8 + c;
      assert midi == GridMidi(id / 8, id % 8) by {
        Chunk.CoordsRoundTrip(r, c);
      }
      AddPad(id, midiToId, idToMidi);
      midiToId := midiToId[midi := id];
      idToMidi := idToMidi[id := midi];
    }
  }

  /** Entering pad `n` into maps that hold the pads below it gives maps
      that hold the pads up to and including it. */
  lemma AddPad(n: int, midiToId: map<int, int>, idToMidi: map<int, int>)
    requires 0 <= n < 64
    requires forall id :: id in idToMidi <==> 0 <= id < n
    requires forall id :: id in idToMidi ==> idToMidi[id] == GridMidi(id / 8, id % 8)
    requires forall midi :: midi in midiToId <==> IsPadMidi(midi) && MidiId(midi) < n
    requires forall midi :: midi in midiToId ==> midiToId[midi] == MidiId(midi)
    ensures var midi := GridMidi(n / 8, n % 8);
      var m2 := midiToId[midi := n];
      var i2 := idToMidi[n := midi];
      && (forall id :: id in i2 <==> 0 <= id < n + 1)
      && (forall id :: id in i2 ==> i2[id] == GridMidi(id / 8, id % 8))
      && (forall m :: m in m2 <==> IsPadMidi(m) && MidiId(m) < n + 1)
      && (forall m :: m in m2 ==> m2[m] == MidiId(m))
  {
    var midi := GridMidi(n / 8, n % 8);
    var cc := Chunk.CoordsFrom(n);
    PadDigits(n / 8, n % 8);
    assert IsPadMidi(midi) && MidiId(midi) == n;
    forall m | IsPadMidi(m) && MidiId(m) == n
      ensures m == midi
    {
      PadMidiRoundTrip(m);
    }
  }

  /** Maps filled for all 64 pads are inverse to each other. */
  lemma GridMapsInverse(midiToId: map<int, int>, idToMidi: map<int, int>)
    requires forall id :: id in idToMidi <==> 0 <= id < 64
    requires forall id :: id in idToMidi ==> idToMidi[id] == GridMidi(id / 8, id % 8)
    requires forall midi :: midi in midiToId <==> IsPadMidi(midi) && MidiId(midi) < 64
    requires forall midi :: midi in midiToId ==> midiToId[midi] == MidiId(midi)
    ensures forall midi :: midi in midiToId <==> IsPadMidi(midi)
    ensures forall midi :: midi in midiToId ==> midiToId[midi] in idToMidi && idToMidi[midiToId[midi]] == midi
    ensures forall id :: id in idToMidi ==> idToMidi[id] in midiToId && midiToId[idToMidi[id]] == id
  {
    forall midi | IsPadMidi(midi)
      ensures MidiId(midi) < 64
    {
      PadMidiRoundTrip(midi);
    }
    forall midi | midi in midiToId
      ensures midiToId[midi] in idToMidi && idToMidi[midiToId[midi]] == midi
    {
      PadMidiRoundTrip(midi);
    }
    forall id | id in idToMidi
      ensures idToMidi[id] in midiToId && midiToId[idToMidi[id]] == id
    {
      PadDigits(id / 8, id % 8);
    }
  }

  /** `update_ids`: makes `b` a copy of `a` and reports which ids that added
      and which it removed, each list in an unspecified order. The set the
      source updates in place is returned. */
  method UpdateIds(a: set<nat>, b: set<nat>) returns (added: seq<nat>, removed: seq<nat>, newB: set<nat>)
    ensures newB == a
    ensures ListsOnce(added, a - b)
    ensures ListsOnce(removed, b - a)
  {
    added := [];
    removed := [];
    var pending := a;
    while pending != {}
      invariant pending <= a
      invariant forall id :: id in added <==> id in a - b && id !in pending
      invariant forall i, j :: 0 <= i < j < |added| ==> added[i] != added[j]
      decreases pending
    {
      var id :| id in pending;
      if id !in b {
        added := added + [id];
      }
      pending := pending - {id};
    }
    pending := b;
    while pending != {}
      invariant pending <= b
      invariant forall id :: id in removed <==> id in b - a && id !in pending
      invariant forall i, j :: 0 <= i < j < |removed| ==> removed[i] != removed[j]
      decreases pending
    {
      var id :| id in pending;
      if id !in a {
        removed := removed + [id];
      }
      pending := pending - {id};
    }
    newB := b;
    for i := 0 to |added|
      invariant newB == b + set k | 0 <= k < i :: added[k]
    {
      newB := newB + {added[i]};
    }
    for i := 0 to |removed|
      invariant newB == (b + (a - b)) - set k | 0 <= k < i :: removed[k]
    {
      newB := newB - {removed[i]};
    }
    assert (set k | 0 <= k < |removed| :: removed[k]) == b - a;
  }

  /** `next_repeat`: the first time at or after `pos` that lies on the
      repeat grid of `rate`, shifted by `offset`. The `u8` sum of the
      sub-ticks must not overflow. */
  function NextRepeat(pos: MidiTime, rate: MidiTime, offset: MidiTime): (next: MidiTime)
    requires rate.ticks != 0
    requires offset.subTicks + rate.subTicks < 256
    ensures Valid(next)
    ensures rate.subTicks == 0 ==> next.subTicks == offset.subTicks % SUB_TICKS
  {
    var root := Add(Quantize(pos, rate), Rem(offset, rate));
    if MidiTimes.Less(root, pos) then Add(root, rate) else root
  }

  /** For a positive whole-tick rate the next repeat lies in the window of
      one rate starting at `pos`, and keeps the offset's phase and
      sub-ticks. */
  lemma NextRepeatInWindow(pos: MidiTime, rate: MidiTime, offset: MidiTime)
    requires Valid(pos) && Valid(offset) && pos.ticks >= 0
    requires rate.ticks > 0 && rate.subTicks == 0
    ensures Valid(NextRepeat(pos, rate, offset))
    ensures LessEq(pos, NextRepeat(pos, rate, offset))
    ensures MidiTimes.Less(NextRepeat(pos, rate, offset), Add(pos, rate))
    ensures NextRepeat(pos, rate, offset).subTicks == offset.subTicks
    ensures NextRepeat(pos, rate, offset).ticks % rate.ticks == offset.ticks % rate.ticks
  {
    var root := Add(Quantize(pos, rate), Rem(offset, rate));
    RepeatRoot(pos, rate, offset);
    if MidiTimes.Less(root, pos) {
      var r := Add(root, rate);
      assert r == MidiTime(root.ticks + rate.ticks, offset.subTicks);
      EuclideanShift(root.ticks, rate.ticks, 1);
    }
  }

  /** The grid point in the rate-long block that holds `pos`, shifted by
      the offset's phase, lies less than one rate from `pos` on either
      side. */
  lemma RepeatRoot(pos: MidiTime, rate: MidiTime, offset: MidiTime)
    requires Valid(pos) && Valid(offset) && pos.ticks >= 0
    requires rate.ticks > 0 && rate.subTicks == 0
    ensures var root := Add(Quantize(pos, rate), Rem(offset, rate));
      Valid(root) && root.subTicks == offset.subTicks
      && root.ticks % rate.ticks == offset.ticks % rate.ticks
      && pos.ticks < root.ticks + rate.ticks
      && root.ticks < pos.ticks + rate.ticks
  {
    var q := Quantize(pos, rate);
    var phase := Rem(offset, rate);
    QuantizeIsMultiple(pos, rate);
    AddWholeTicks(q, phase);
    ShiftByMultiple(phase.ticks, q.ticks, rate.ticks);
    EuclideanUnique(phase.ticks, rate.ticks, 0, phase.ticks);
  }

  /** Adding a whole number of ticks keeps the sub-ticks. */
  lemma AddWholeTicks(whole: MidiTime, t: MidiTime)
    requires whole.subTicks == 0 && Valid(t)
    ensures Add(whole, t) == MidiTime(whole.ticks + t.ticks, t.subTicks)
  {
  }

  lemma QuantizeIsMultiple(pos: MidiTime, rate: MidiTime)
    requires rate.ticks > 0
    ensures Quantize(pos, rate).ticks % rate.ticks == 0
  {
    TruncRemZero(Quantize(pos, rate).ticks, rate.ticks);
  }

  /** Adding a multiple of the divisor leaves the remainder alone. */
  lemma ShiftByMultiple(x: int, y: int, m: int)
    requires m > 0 && y % m == 0
    ensures (x + y) % m == x % m
  {
    var k := y / m;
    assert y == m * k;
    EuclideanShift(x, m, k);
  }

  /** Powers of two: 1, 2, 4, ... */
  predicate IsPowerOfTwo(n: int)
    decreases if n < 0 then 0 else n
  {
    n == 1 || (n >= 2 && n % 2 == 0 && IsPowerOfTwo(n / 2))
  }

  /** Between two consecutive powers of two there is no other. */
  lemma {:induction false} PowerOfTwoGap(p: int, b: int)
    requires IsPowerOfTwo(p) && IsPowerOfTwo(b) && b / 2 < p
    ensures b <= p
    decreases if p < 0 then 0 else p
  {
    if b > 1 && p > 1 {
      PowerOfTwoGap(p / 2, b / 2);
    }
  }

  /** `next_power_of_two`: doubles from 1 until past `a`. For `a` of 2^31
      or more the `u32` shift wraps to 0 and the loop never ends, so the
      source can only be called below that. */
  method NextPowerOfTwo(a: nat) returns (b: nat)
    requires a < 0x8000_0000
    ensures IsPowerOfTwo(b) && a < b
    ensures forall p :: IsPowerOfTwo(p) && a < p ==> b <= p
  {
    b := 1;
    while b <= a
      invariant IsPowerOfTwo(b) && b / 2 <= a
      decreases a + 1 - b
    {
      assert b * 2 < 0x1_0000_0000;
      b := b * 2;
    }
    forall p | IsPowerOfTwo(p) && a < p
      ensures b <= p
    {
      PowerOfTwoGap(p, b);
    }
  }

  /** `prev_power_of_two`: doubles from 1 until reaching `a`, then halves.
      That is 0 when `a` is at most 1 and otherwise the largest power of two
      below `a`. For `a` above 2^31 the `u32` shift wraps to 0 and the loop
      never ends. */
  method PrevPowerOfTwo(a: nat) returns (r: nat)
    requires a <= 0x8000_0000
    ensures a <= 1 ==> r == 0
    ensures a >= 2 ==> IsPowerOfTwo(r) && r < a
    ensures a >= 2 ==> forall p :: IsPowerOfTwo(p) && p < a ==> p <= r
  {
    var b := 1;
    while b < a
      invariant IsPowerOfTwo(b) && (b == 1 || b / 2 < a)
      decreases a - b
    {
      assert b * 2 < 0x1_0000_0000;
      b := b * 2;
    }
    r := b / 2;
    if a >= 2 {
      forall p | IsPowerOfTwo(p) && p < a
        ensures p <= r
      {
        if p > r {
          PowerOfTwoGap(p, b);
        }
      }
    }
  }

  /** `adjust_velocity`: pads below the threshold are silent; the rest are
      stretched so that the range from the threshold to 127 covers 0 to
      127, capped at 127. The source computes in `f64`; because 107 is prime
      the exact quotient is either a whole number (at 20 and 127) or at
      least 1/107 away from one, so truncating the float gives the integer
      floor used here. */
  function AdjustVelocity(input: U8): (velocity: U8)
    ensures velocity <= 127
    ensures input == 127 ==> velocity == 127
  {
    if input < VELOCITY_THRESHOLD then 0
    else
      var range := 127 - VELOCITY_THRESHOLD;
      var pos := input - VELOCITY_THRESHOLD;
      var scaled := pos * 127 / range;
      if scaled > 127 then 127 else scaled
  }

  /** The curve never raises a velocity above 127 or above the input, and
      silences exactly the presses at or below the threshold. */
  lemma AdjustVelocityBounds(input: U8)
    ensures AdjustVelocity(input) <= 127
    ensures AdjustVelocity(input) <= input
    ensures AdjustVelocity(input) == 0 <==> input <= VELOCITY_THRESHOLD
  {
    if input >= VELOCITY_THRESHOLD && input <= 127 {
      var pos := input - VELOCITY_THRESHOLD;
      var scaled := pos * 127 / 107;
      assert scaled * 107 <= pos * 127;
      assert pos * 127 <= 107 * input;
      if input > VELOCITY_THRESHOLD {
        assert pos * 127 >= 107;
      }
    }
  }

  /** A harder press never gives a softer note. */
  lemma AdjustVelocityMonotone(v: U8, w: U8)
    requires v <= w
    ensures AdjustVelocity(v) <= AdjustVelocity(w)
  {
    if v >= VELOCITY_THRESHOLD {
      DivMonotone((v - VELOCITY_THRESHOLD) * 127, (w - VELOCITY_THRESHOLD) * 127, 107);
    }
  }

  lemma DivMonotone(x: int, y: int, d: int)
    requires 0 <= x <= y && d > 0
    ensures x / d <= y / d
  {
    var qx, qy := x / d, y / d;
    assert d * qx <= x <= y < d * qy + d;
    if qx > qy {
      MulAtLeast(d, qx - qy);
      MulSub(d, qx, qy);
    }
  }

  /** The values the source's own test pins down. */
  lemma AdjustVelocitySourceTests()
    ensures AdjustVelocity(0) == 0 && AdjustVelocity(20) == 0
    ensures AdjustVelocity(21) == 1 && AdjustVelocity(22) == 2
    ensures AdjustVelocity(64) == 52 && AdjustVelocity(126) == 125
    ensures AdjustVelocity(127) == 127
  {
  }
}
