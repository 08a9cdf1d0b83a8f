/** The root and scale selectors: buttons latch into an insertion-ordered
    set, and the most recent button still held picks the shared scale's
    root or mode. */
module SelectChunks {
  import opened RustInt
  import opened Chunk
  import opened OutputValues
  import opened MidiTimes
  import opened Scales
  import opened IdStacks

  /** The held buttons after a trigger: a press inserts, a release takes
      the id out. */
  function Latch(stack: seq<nat>, id: nat, value: OutputValue): seq<nat>
  {
    match value
    case On(_) => Insert(stack, id)
    case Off => Without(stack, id)
  }

  /** The held buttons never repeat an id, and a release keeps the others
      in the order they were pressed. */
  lemma LatchDistinct(stack: seq<nat>, id: nat, value: OutputValue)
    requires Distinct(stack)
    ensures Distinct(Latch(stack, id, value))
    ensures value.Off? && id in stack ==>
      exists i :: 0 <= i < |stack| && Latch(stack, id, value) == stack[..i] + stack[i + 1..]
    ensures value.Off? && id !in stack ==> Latch(stack, id, value) == stack
  {
    if value.On? {
      InsertDistinct(stack, id);
    } else {
      WithoutDistinct(stack, id);
      if id in stack {
        var i :| 0 <= i < |stack| && stack[i] == id;
        WithoutAt(stack, i);
      } else {
        WithoutAbsent(stack, id);
      }
    }
  }

  /** A press of an id not held makes it the selection. */
  lemma PressSelects(stack: seq<nat>, id: nat, velocity: U8)
    requires Distinct(stack) && id !in stack
    ensures var after := Latch(stack, id, On(velocity));
      |after| > 0 && after[|after| - 1] == id
  {
    InsertDistinct(stack, id);
  }

  /** `RootSelect`: the held buttons; the most recent sets the root to
      `52 + id`. */
  class RootSelect {
    const scale: Scale
    var stack: seq<nat>

    constructor (scale: Scale)
      ensures this.scale == scale && stack == []
    {
      this.scale := scale;
      stack := [];
    }

    function Latching(): LatchMode { NoSuppress }

    function Schedule(): ScheduleMode { Monophonic }

    /** `refresh_output`: the root follows the top of the stack; with no
        button held it is left alone. */
    method RefreshOutput()
      modifies scale
      ensures |stack| > 0 ==> scale.root == 52 + stack[|stack| - 1]
      ensures |stack| == 0 ==> scale.root == old(scale.root)
      ensures scale.scale == old(scale.scale) && scale.offset == old(scale.offset)
    {
      if |stack| > 0 {
        var id := stack[|stack| - 1];
        scale.root := 52 + id;
      }
    }

    /** `trigger`: latch the button, then refresh the root. */
    method Trigger(id: nat, value: OutputValue)
      modifies this, scale
      ensures stack == Latch(old(stack), id, value)
      ensures |stack| > 0 ==> scale.root == 52 + stack[|stack| - 1] && GetActive() == {stack[|stack| - 1]}
      ensures |stack| == 0 ==> scale.root == old(scale.root) && GetActive() == old(GetActive())
      ensures scale.scale == old(scale.scale) && scale.offset == old(scale.offset)
    {
      match value {
        case Off =>
          stack := Without(stack, id);
        case On(_) =>
          stack := Insert(stack, id);
      }
      RefreshOutput();
    }

    /** `on_tick`: the root is refreshed on whole beats only. */
    method OnTick(time: MidiTime)
      modifies scale
      ensures IsWholeBeat(time) && |stack| > 0 ==> scale.root == 52 + stack[|stack| - 1]
      ensures !IsWholeBeat(time) || |stack| == 0 ==> scale.root == old(scale.root)
      ensures scale.scale == old(scale.scale) && scale.offset == old(scale.offset)
    {
      if IsWholeBeat(time) {
        RefreshOutput();
      }
    }

    /** `get_active`: the button the root stands for, if the root is one a
        button can pick. */
    function GetActive(): set<nat>
      reads scale
    {
      if scale.root >= 52 then {scale.root - 52} else {}
    }
  }

  /** `ScaleSelect`: the held buttons; the most recent sets the mode to its
      id. */
  class ScaleSelect {
    const scale: Scale
    var stack: seq<nat>

    constructor (scale: Scale)
      ensures this.scale == scale && stack == []
    {
      this.scale := scale;
      stack := [];
    }

    function Latching(): LatchMode { NoSuppress }

    function Schedule(): ScheduleMode { Monophonic }

    /** `refresh_output`: the mode follows the top of the stack; with no
        button held it is left alone. */
    method RefreshOutput()
      modifies scale
      ensures |stack| > 0 ==> scale.scale == stack[|stack| - 1]
      ensures |stack| == 0 ==> scale.scale == old(scale.scale)
      ensures scale.root == old(scale.root) && scale.offset == old(scale.offset)
    {
      if |stack| > 0 {
        var id := stack[|stack| - 1];
        scale.scale := id;
      }
    }

    /** `trigger`: latch the button, then refresh the mode. */
    method Trigger(id: nat, value: OutputValue)
      modifies this, scale
      ensures stack == Latch(old(stack), id, value)
      ensures |stack| > 0 ==> scale.scale == stack[|stack| - 1] && GetActive() == {stack[|stack| - 1]}
      ensures |stack| == 0 ==> scale.scale == old(scale.scale) && GetActive() == old(GetActive())
      ensures scale.root == old(scale.root) && scale.offset == old(scale.offset)
    {
      match value {
        case Off =>
          stack := Without(stack, id);
        case On(_) =>
          stack := Insert(stack, id);
      }
      RefreshOutput();
    }

    /** `get_active`: the button the mode stands for, if it is not
        negative. */
    function GetActive(): set<nat>
      reads scale
    {
      if scale.scale >= 0 then {scale.scale} else {}
    }
  }
}
