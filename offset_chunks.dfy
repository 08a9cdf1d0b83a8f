/** The offset chunks: each held button adds a signed step, and the sum of
    the steps held is written to a shared setting (the scale's mode, the
    scale's root offset, or the keyboard offset). */
module OffsetChunks {
  import opened RustInt
  import opened OutputValues
  import opened Scales

  /** The steps the eight columns stand for; none of them is zero. */
  const OFFSETS: seq<int> := [-4, -3, -2, -1, 1, 2, 3, 4]

  /** Some key of a non-empty map. */
  ghost function Pick(m: map<nat, int>): nat
    requires |m| > 0
  {
    var k :| k in m; k
  }

  /** `values().sum()`: the sum of a map's values, in no particular order. */
  ghost function MapSum(m: map<nat, int>): int
    decreases |m|
  {
    if |m| == 0 then 0
    else
      var k := Pick(m);
      m[k] + MapSum(m - {k})
  }

  /** The sum does not depend on the key taken out first. */
  lemma {:induction false} MapSumRemove(m: map<nat, int>, k: nat)
    requires k in m
    ensures MapSum(m) == m[k] + MapSum(m - {k})
    decreases |m|
  {
    var j := Pick(m);
    if j != k {
      assert |m - {j}| == |m| - 1;
      assert |m - {k}| == |m| - 1;
      MapSumRemove(m - {j}, k);
      MapSumRemove(m - {k}, j);
      assert m - {j} - {k} == m - {k} - {j};
    }
  }

  /** Storing `v` at `k` replaces what `k` contributed. */
  lemma MapSumUpdate(m: map<nat, int>, k: nat, v: int)
    ensures MapSum(m[k := v]) == MapSum(m - {k}) + v
  {
    MapSumRemove(m[k := v], k);
    assert m[k := v] - {k} == m - {k};
  }

  /** Steps of at most four add up to at most four per held button. */
  lemma {:induction false} MapSumBound(m: map<nat, int>)
    requires forall k :: k in m ==> -4 <= m[k] <= 4
    ensures -4 * |m| <= MapSum(m) <= 4 * |m|
    decreases |m|
  {
    if |m| > 0 {
      var k := Pick(m);
      MapSumBound(m - {k});
    }
  }

  /** The map after a press or release: a press records the column's step,
      a release forgets the button. */
  function Record(values: map<nat, int>, id: nat, value: OutputValue): (r: map<nat, int>)
  {
    match value
    case On(_) => values[id := OFFSETS[id % 8]]
    case Off => values - {id}
  }

  /** A press records the column's step and a release drops it, so the sum
      moves by exactly that step. */
  lemma RecordSum(values: map<nat, int>, id: nat, value: OutputValue)
    ensures value.On? && id !in values ==> MapSum(Record(values, id, value)) == MapSum(values) + OFFSETS[id % 8]
    ensures value.Off? && id in values ==> MapSum(Record(values, id, value)) == MapSum(values) - values[id]
  {
    if value.On? && id !in values {
      MapSumUpdate(values, id, OFFSETS[id % 8]);
      assert values - {id} == values;
    } else if value.Off? && id in values {
      MapSumRemove(values, id);
    }
  }

  /** Pressing a new button always moves the sum, since no step is zero. */
  lemma PressMovesSum(values: map<nat, int>, id: nat, velocity: U8)
    requires id !in values
    ensures MapSum(Record(values, id, On(velocity))) != MapSum(values)
  {
    RecordSum(values, id, On(velocity));
  }

  /** Pressing and releasing a button not held leaves the held steps as
      they were. */
  lemma PressThenReleaseRestores(values: map<nat, int>, id: nat, velocity: U8)
    requires id !in values
    ensures Record(Record(values, id, On(velocity)), id, Off) == values
  {
  }

  /** Every held step is one of `OFFSETS`, so lies in [-4, 4]. */
  ghost predicate StepsValid(values: map<nat, int>)
  {
    forall k :: k in values ==> -4 <= values[k] <= 4
  }

  /** Recording keeps every held step one of `OFFSETS`. */
  lemma RecordValid(values: map<nat, int>, id: nat, value: OutputValue)
    requires StepsValid(values)
    ensures StepsValid(Record(values, id, value))
    ensures -4 * |Record(values, id, value)| <= MapSum(Record(values, id, value)) <= 4 * |Record(values, id, value)|
  {
    MapSumBound(Record(values, id, value));
  }

  /** `values().sum()`: adds the values up, key by key. */
  method Sum(values: map<nat, int>) returns (total: int)
    ensures total == MapSum(values)
  {
    var remaining := values;
    total := 0;
    while remaining != map[]
      invariant total + MapSum(remaining) == MapSum(values)
      decreases |remaining|
    {
      var k :| k in remaining;
      MapSumRemove(remaining, k);
      total := total + remaining[k];
      remaining := remaining - {k};
    }
  }

  /** `ScaleOffsetChunk`: the held steps; their sum, taken modulo seven,
      is the shared scale's mode. */
  class ScaleOffsetChunk {
    const scale: Scale
    var outputValues: map<nat, int>

    constructor (scale: Scale)
      ensures this.scale == scale && outputValues == map[]
    {
      this.scale := scale;
      outputValues := map[];
    }

    /** `trigger`: record the step, then set the mode to the sum modulo
        seven, always one of the seven modes. */
    method Trigger(id: nat, value: OutputValue)
      modifies this, scale
      ensures outputValues == Record(old(outputValues), id, value)
      ensures scale.scale == Modulo(MapSum(outputValues), 7) && 0 <= scale.scale < 7
      ensures scale.root == old(scale.root) && scale.offset == old(scale.offset)
    {
      match value {
        case Off =>
          outputValues := outputValues - {id};
        case On(_) =>
          var offset := OFFSETS[id % |OFFSETS|];
          outputValues := outputValues[id := offset];
      }
      assert outputValues == Record(old(outputValues), id, value);
      var total := Sum(outputValues);
      scale.scale := Modulo(total, 7);
    }
  }

  /** `RootOffsetChunk`: the held steps; their sum is the shared scale's
      root offset. */
  class RootOffsetChunk {
    const scale: Scale
    var outputValues: map<nat, int>

    constructor (scale: Scale)
      ensures this.scale == scale && outputValues == map[]
    {
      this.scale := scale;
      outputValues := map[];
    }

    /** `trigger`: record the step, then set the offset to the sum. */
    method Trigger(id: nat, value: OutputValue)
      modifies this, scale
      ensures outputValues == Record(old(outputValues), id, value)
      ensures scale.offset == MapSum(outputValues)
      ensures scale.root == old(scale.root) && scale.scale == old(scale.scale)
    {
      match value {
        case Off =>
          outputValues := outputValues - {id};
        case On(_) =>
          var offset := OFFSETS[id % |OFFSETS|];
          outputValues := outputValues[id := offset];
      }
      assert outputValues == Record(old(outputValues), id, value);
      var total := Sum(outputValues);
      scale.offset := total;
    }
  }

  /** The step `OffsetChunk` keeps for a button: the step of its column on
      a press of one of the first eight buttons, zero otherwise. */
  function KeptStep(id: nat, value: OutputValue): (step: int)
    ensures -4 <= step <= 4
    ensures value.Off? || id >= 8 ==> step == 0
    ensures value.On? && id < 8 ==> step == OFFSETS[id] && step != 0
  {
    match value
    case On(_) => if id < |OFFSETS| then OFFSETS[id] else 0
    case Off => 0
  }

  /** `OffsetChunk`: a step per button ever pressed; a release keeps the
      button with step zero. The sum is the keyboard offset. */
  class OffsetChunk {
    const offset: Offset
    var outputValues: map<nat, int>

    constructor (offset: Offset)
      ensures this.offset == offset && outputValues == map[]
    {
      this.offset := offset;
      outputValues := map[];
    }

    /** `trigger`: store the button's step, then set the offset to the
        sum. */
    method Trigger(id: nat, value: OutputValue)
      modifies this, offset
      ensures outputValues == old(outputValues)[id := KeptStep(id, value)]
      ensures offset.offset == MapSum(outputValues)
      ensures offset.offset == MapSum(old(outputValues) - {id}) + KeptStep(id, value)
      ensures offset.oct == old(offset.oct) && offset.third == old(offset.third)
      ensures offset.pitch == old(offset.pitch) && offset.base == old(offset.base)
    {
      var offsetValue := 0;
      match value {
        case On(_) =>
          if id < |OFFSETS| {
            offsetValue := OFFSETS[id];
          }
        case Off =>
      }
      outputValues := outputValues[id := offsetValue];
      var total := Sum(outputValues);
      offset.offset := total;
      MapSumUpdate(old(outputValues), id, offsetValue);
    }
  }
}
