/** `LoopState`: the current loop (length and offset, in beats) with undo
    and redo stacks; every change is reported to an `on_change` callback. */
module LoopStates {

  /** A loop selection. The source stores `f64` beats. */
  datatype Loop = Loop(length: real, offset: real)

  /** The two stacks: the last undo entry is the current loop. */
  datatype History = History(undos: seq<Loop>, redos: seq<Loop>)

  ghost predicate WellFormed(h: History)
  {
    |h.undos| >= 1
  }

  function Current(h: History): Loop
    requires WellFormed(h)
  {
    h.undos[|h.undos| - 1]
  }

  /** `set`: the new loop becomes current; the redo stack is kept. */
  function SetLoop(h: History, value: Loop): (r: History)
    ensures WellFormed(r) && Current(r) == value
    ensures r.redos == h.redos && |r.undos| == |h.undos| + 1 && r.undos[..|h.undos|] == h.undos
  {
    History(h.undos + [value], h.redos)
  }

  /** `undo`: with more than one entry, the current loop moves to the redo
      stack; the first loop is never undone. */
  function Undone(h: History): (r: History)
    requires WellFormed(h)
    ensures WellFormed(r)
    ensures |h.undos| == 1 ==> r == h
    ensures |h.undos| > 1 ==> |r.undos| + 1 == |h.undos| && r.redos == h.redos + [Current(h)]
  {
    if |h.undos| > 1 then History(h.undos[..|h.undos| - 1], h.redos + [Current(h)]) else h
  }

  /** `redo`: the last undone loop becomes current again. */
  function Redone(h: History): (r: History)
    requires WellFormed(h)
    ensures WellFormed(r)
    ensures h.redos == [] ==> r == h
    ensures h.redos != [] ==> Current(r) == h.redos[|h.redos| - 1] && |r.redos| + 1 == |h.redos|
  {
    if h.redos != [] then History(h.undos + [h.redos[|h.redos| - 1]], h.redos[..|h.redos| - 1]) else h
  }

  /** Redo right after an effective undo restores both stacks. */
  lemma RedoUndoesUndo(h: History)
    requires WellFormed(h) && |h.undos| > 1
    ensures Redone(Undone(h)) == h
  {
    assert h.undos[..|h.undos| - 1] + [h.undos[|h.undos| - 1]] == h.undos;
  }

  /** Undo right after a redo restores both stacks. */
  lemma UndoUndoesRedo(h: History)
    requires WellFormed(h) && h.redos != []
    ensures Undone(Redone(h)) == h
  {
    assert h.redos[..|h.redos| - 1] + [h.redos[|h.redos| - 1]] == h.redos;
  }

  /** Undo after a set returns to the loop current before the set. */
  lemma UndoUndoesSet(h: History, value: Loop)
    requires WellFormed(h)
    ensures Current(Undone(SetLoop(h, value))) == Current(h)
  {
  }

  class LoopState {
    var undos: seq<Loop>
    var redos: seq<Loop>
    /** Every loop passed to `on_change`, in order. */
    ghost var notified: seq<Loop>

    function State(): History
      reads this
    {
      History(undos, redos)
    }

    ghost predicate Valid()
      reads this
    {
      WellFormed(State())
    }

    /** `new`: one loop of the default length ending at the current
        position, nothing to redo. */
    constructor (defaultLength: real)
      ensures Valid()
      ensures undos == [Loop(defaultLength, 0.0 - defaultLength)] && redos == []
      ensures notified == []
    {
      undos := [Loop(defaultLength, 0.0 - defaultLength)];
      redos := [];
      notified := [];
    }

    /** `get`: the current loop. */
    function Get(): (r: Loop)
      requires Valid()
      reads this
      ensures r == Current(State())
    {
      undos[|undos| - 1]
    }

    method Set(value: Loop)
      requires Valid()
      modifies this
      ensures Valid() && State() == SetLoop(old(State()), value)
      ensures notified == old(notified) + [value]
    {
      undos := undos + [value];
      notified := notified + [Get()];
    }

    /** `undo`: reports the new current loop only when something was
        undone. */
    method Undo()
      requires Valid()
      modifies this
      ensures Valid() && State() == Undone(old(State()))
      ensures notified == if |old(undos)| > 1 then old(notified) + [Get()] else old(notified)
    {
      if |undos| > 1 {
        var value := undos[|undos| - 1];
        undos := undos[..|undos| - 1];
        redos := redos + [value];
        notified := notified + [Get()];
      }
    }

    /** `redo`: reports the new current loop only when something was
        redone. */
    method Redo()
      requires Valid()
      modifies this
      ensures Valid() && State() == Redone(old(State()))
      ensures notified == if old(redos) != [] then old(notified) + [Get()] else old(notified)
    {
      if redos != [] {
        var value := redos[|redos| - 1];
        redos := redos[..|redos| - 1];
        undos := undos + [value];
        notified := notified + [Get()];
      }
    }
  }
}
