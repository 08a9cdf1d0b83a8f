/** The VT-3 voice transformer played as a monophonic synth: the most
    recent key sounds, a released top key falls back to the key below, and
    robot mode is switched on while any key is held. */
module Vt3Devices {
  import opened OutputValues
  import opened Scales

  /** A voice on the trigger stack: grid id, note and velocity. */
  type Voice = (nat, int, int)

  /** The held voices, most recent last, and the set of held ids. */
  datatype Voices = Voices(stack: seq<Voice>, triggering: set<nat>)

  /** `retain(|(item_id, _, _)| *item_id != id)`: the voices of other ids,
      in order. */
  function Remaining(stack: seq<Voice>, id: nat): (r: seq<Voice>)
    ensures |r| <= |stack|
  {
    if stack == [] then []
    else
      var last := stack[|stack| - 1];
      Remaining(stack[..|stack| - 1], id) + (if last.0 == id then [] else [last])
  }

  /** The ids with a voice on `stack`. */
  function Ids(stack: seq<Voice>): set<nat>
  {
    set i | 0 <= i < |stack| :: stack[i].0
  }

  /** `Remaining` drops exactly the voices of `id`. */
  lemma {:induction false} RemainingIds(stack: seq<Voice>, id: nat)
    ensures Ids(Remaining(stack, id)) == Ids(stack) - {id}
  {
    if stack != [] {
      var rest := stack[..|stack| - 1];
      var last := stack[|stack| - 1];
      RemainingIds(rest, id);
      assert Ids(stack) == Ids(rest) + {last.0} by {
        assert stack == rest + [last];
        forall x | x in Ids(stack) ensures x in Ids(rest) + {last.0} {
          var i :| 0 <= i < |stack| && stack[i].0 == x;
          if i < |rest| {
            assert rest[i].0 == x;
          }
        }
        forall x | x in Ids(rest) + {last.0} ensures x in Ids(stack) {
          if x != last.0 {
            var i :| 0 <= i < |rest| && rest[i].0 == x;
            assert stack[i].0 == x;
          } else {
            assert stack[|stack| - 1].0 == x;
          }
        }
      }
      var kept := if last.0 == id then [] else [last];
      assert Ids(Remaining(stack, id)) == Ids(Remaining(rest, id)) + Ids(kept) by {
        IdsAppend(Remaining(rest, id), kept);
      }
      IdsSingleton(last);
      assert Ids(kept) == if last.0 == id then {} else {last.0};
    }
  }

  /** The ids of one voice. */
  lemma IdsSingleton(voice: Voice)
    ensures Ids([voice]) == {voice.0}
    ensures Ids([]) == {}
  {
    assert [voice][0] == voice;
  }

  /** The ids of a concatenation. */
  lemma IdsAppend(a: seq<Voice>, b: seq<Voice>)
    ensures Ids(a + b) == Ids(a) + Ids(b)
  {
    var ab := a + b;
    forall x | x in Ids(ab) ensures x in Ids(a) + Ids(b) {
      var i :| 0 <= i < |ab| && ab[i].0 == x;
      if i < |a| {
        assert a[i].0 == x;
      } else {
        assert b[i - |a|].0 == x;
      }
    }
    forall x | x in Ids(a) + Ids(b) ensures x in Ids(ab) {
      if x in Ids(a) {
        var i :| 0 <= i < |a| && a[i].0 == x;
        assert ab[i].0 == x;
      } else {
        var i :| 0 <= i < |b| && b[i].0 == x;
        assert ab[|a| + i].0 == x;
      }
    }
  }

  /** Appending three pieces in turn appends their concatenation. */
  lemma AppendThree(log: seq<seq<int>>, a: seq<seq<int>>, b: seq<seq<int>>, c: seq<seq<int>>)
    ensures log + a + b + c == log + (a + b + c)
  {
  }

  /** The trigger stack and the triggering set name the same ids. */
  predicate Consistent(voices: Voices)
  {
    Ids(voices.stack) == voices.triggering
  }

  /** Robot mode on (`[176, 17, 127]`) before a trigger when nothing was
      held. */
  function RobotOn(voices: Voices): seq<seq<int>>
  {
    if |voices.triggering| == 0 then [[176, 17, 127]] else []
  }

  /** Robot mode off (`[176, 17, 0]`) after a trigger when nothing is held. */
  function RobotOff(voices: Voices): seq<seq<int>>
  {
    if |voices.triggering| == 0 then [[176, 17, 0]] else []
  }

  /** The press or release itself, between the robot-mode messages. A
      press (velocity above zero) stops the top voice's note at its own
      velocity, pushes the new voice and plays it. A release stops the
      top voice if it is the released id, drops every voice of the id and,
      if the top was released, plays the voice now on top again. */
  function Handle(voices: Voices, id: nat, velocity: int, note: int): (r: (Voices, seq<seq<int>>))
    ensures r.0.triggering == if velocity > 0 then voices.triggering + {id} else voices.triggering - {id}
    ensures velocity > 0 ==> r.0.stack == voices.stack + [(id, note, velocity)] && |r.1| > 0 && r.1[|r.1| - 1] == [144, note, velocity]
    ensures velocity <= 0 ==> r.0.stack == Remaining(voices.stack, id)
    ensures |r.1| <= 2 && forall m :: m in r.1 ==> |m| == 3 && (m[0] == 128 || m[0] == 144)
  {
    var stack := voices.stack;
    if velocity > 0 then
      var stop := if |stack| > 0 then [[128, stack[|stack| - 1].1, stack[|stack| - 1].2]] else [];
      (Voices(stack + [(id, note, velocity)], voices.triggering + {id}), stop + [[144, note, velocity]])
    else
      var wasTop := |stack| > 0 && stack[|stack| - 1].0 == id;
      var rest := Remaining(stack, id);
      var stop := if wasTop then [[128, stack[|stack| - 1].1, 0]] else [];
      var resume := if wasTop && |rest| > 0 then [[144, rest[|rest| - 1].1, rest[|rest| - 1].2]] else [];
      (Voices(rest, voices.triggering - {id}), stop + resume)
  }

  /** A `trigger` given the note the id would play: robot mode on, the press
      or release, robot mode off. */
  function Step(voices: Voices, id: nat, velocity: int, note: int): (r: (Voices, seq<seq<int>>))
    ensures r.0 == Handle(voices, id, velocity, note).0
    ensures |r.1| <= 4
    ensures velocity > 0 ==> |r.1| > 0 && r.1[|r.1| - 1] == [144, note, velocity]
  {
    var handled := Handle(voices, id, velocity, note);
    (handled.0, RobotOn(voices) + handled.1 + RobotOff(handled.0))
  }

  /** Triggers keep the stack and the triggering set in step. */
  lemma TriggerKeepsConsistent(voices: Voices, id: nat, velocity: int, note: int)
    requires Consistent(voices)
    ensures Consistent(Step(voices, id, velocity, note).0)
  {
    if velocity > 0 {
      IdsAppend(voices.stack, [(id, note, velocity)]);
      IdsSingleton((id, note, velocity));
    } else {
      RemainingIds(voices.stack, id);
    }
  }

  /** Robot mode is switched on exactly when a trigger arrives with no key
      held, and off exactly when none is held after it. */
  lemma RobotModeFollowsHeldKeys(voices: Voices, id: nat, velocity: int, note: int)
    ensures var (after, messages) := Step(voices, id, velocity, note);
      (|voices.triggering| == 0 <==> |messages| > 0 && messages[0] == [176, 17, 127])
      && (|after.triggering| == 0 <==> |messages| > 0 && messages[|messages| - 1] == [176, 17, 0])
  {
    var (after, handled) := Handle(voices, id, velocity, note);
    assert forall m :: m in handled ==> m[0] == 128 || m[0] == 144;
  }

  /** A press always leaves a key held, so robot mode stays on. */
  lemma PressKeepsRobotMode(voices: Voices, id: nat, velocity: int, note: int)
    requires velocity > 0
    ensures id in Step(voices, id, velocity, note).0.triggering
    ensures Step(voices, id, velocity, note).0.stack[|voices.stack|] == (id, note, velocity)
  {
  }

  /** Releasing the only held key stops its note and leaves robot mode. */
  lemma ReleaseLastKey(id: nat, note: int, velocity: int)
    requires velocity > 0
    ensures Step(Voices([(id, note, velocity)], {id}), id, 0, 0)
         == (Voices([], {}), [[128, note, 0], [176, 17, 0]])
  {
    var voices := Voices([(id, note, velocity)], {id});
    assert voices.stack[..0] == [];
    assert Remaining(voices.stack, id) == [];
    var handled := Handle(voices, id, 0, 0);
    assert voices.triggering - {id} == {};
    assert [[128, note, 0]] + [] == [[128, note, 0]];
    assert handled == (Voices([], {}), [[128, note, 0]]);
    assert RobotOn(voices) == [] by {
      assert id in voices.triggering;
    }
    assert RobotOff(handled.0) == [[176, 17, 0]];
    assert Step(voices, id, 0, 0) == (handled.0, RobotOn(voices) + handled.1 + RobotOff(handled.0));
    assert [] + [[128, note, 0]] + [[176, 17, 0]] == [[128, note, 0], [176, 17, 0]];
  }

  /** `on_tick`'s first step, with the note the top id would play now: a
      changed top voice plays the new note at its velocity, stops the old
      one and stores the new note. */
  function RetuneTop(stack: seq<Voice>, note: int): (r: (seq<Voice>, seq<seq<int>>))
    ensures |r.0| == |stack|
    ensures r.1 == [] <==> r.0 == stack
    ensures r.1 == [] <==> |stack| == 0 || stack[|stack| - 1].1 == note
  {
    if |stack| > 0 && stack[|stack| - 1].1 != note then
      var (id, previous, velocity) := stack[|stack| - 1];
      (stack[..|stack| - 1] + [(id, note, velocity)], [[144, note, velocity], [128, previous, 0]])
    else (stack, [])
  }

  /** Retuning keeps the ids and velocities of every voice and the notes of
      all but the top. */
  lemma RetuneTopKeepsVoices(stack: seq<Voice>, note: int)
    ensures var (after, _) := RetuneTop(stack, note);
      |after| == |stack|
      && (forall i :: 0 <= i < |stack| ==> after[i].0 == stack[i].0 && after[i].2 == stack[i].2)
      && (forall i :: 0 <= i < |stack| - 1 ==> after[i] == stack[i])
      && (|stack| > 0 ==> after[|stack| - 1].1 == note)
  {
  }

  /** `VT3`: the trigger stack and the ids being triggered. */
  class VT3 {
    const scale: Scale
    const offset: Offset
    var triggerStack: seq<Voice>
    var triggering: set<nat>
    /** Every message sent, in order. */
    ghost var sent: seq<seq<int>>

    constructor (scale: Scale, offset: Offset)
      ensures this.scale == scale && this.offset == offset
      ensures triggerStack == [] && triggering == {} && sent == []
    {
      this.scale := scale;
      this.offset := offset;
      triggerStack := [];
      triggering := {};
      sent := [];
    }

    function State(): Voices
      reads this
    {
      Voices(triggerStack, triggering)
    }

    /** The note voice `id` plays under the current scale and offset: the
        degree `id` moved by the base and scale offsets, shifted by the
        pitch and octave. */
    function NoteOf(id: nat): (note: int)
      reads scale, offset
      ensures 0 <= note < 256
      ensures offset.base + offset.offset == 0 ==> note == PlayedNote(scale.root, scale.scale, id, offset.pitch, offset.oct)
    {
      PlayedNote(scale.root, scale.scale, id + (offset.base + offset.offset), offset.pitch, offset.oct)
    }

    /** `get_note_id`: the degree `id` moved by the base and scale offsets,
        shifted by the pitch and octave. */
    method NoteId(id: nat) returns (note: int)
      ensures note == NoteOf(id)
    {
      var degree := id + (offset.base + offset.offset);
      note := scale.PlayedNoteAt(degree, offset.pitch, offset.oct);
      assert note == PlayedNote(scale.root, scale.scale, degree, offset.pitch, offset.oct);
    }

    /** `trigger`: a press plays the note `NoteId` gives; a release (`Off`
        or a zero velocity) needs no note. */
    method Trigger(id: nat, value: OutputValue)
      modifies this
      ensures Value(value) > 0 ==>
        var note := old(NoteOf(id));
        State() == Step(old(State()), id, Value(value), note).0
        && sent == old(sent) + Step(old(State()), id, Value(value), note).1
      ensures Value(value) == 0 ==>
        State() == Step(old(State()), id, 0, 0).0
        && sent == old(sent) + Step(old(State()), id, 0, 0).1
    {
      var velocity := Value(value);
      var note := 0;
      if velocity > 0 {
        note := NoteId(id);
      }
      TriggerWith(id, velocity, note);
    }

    /** The body of `trigger` once the velocity and note are known. */
    method TriggerWith(id: nat, velocity: int, note: int)
      modifies this
      ensures State() == Step(old(State()), id, velocity, note).0
      ensures sent == old(sent) + Step(old(State()), id, velocity, note).1
    {
      ghost var handled := Handle(State(), id, velocity, note);
      ghost var robotOn := RobotOn(State());
      sent := sent + robotOn;
      if velocity > 0 {
        Press(id, note, velocity);
      } else {
        Release(id);
      }
      assert State() == handled.0 && sent == old(sent) + robotOn + handled.1;
      ghost var robotOff := RobotOff(State());
      if |triggering| == 0 {
        sent := sent + [[176, 17, 0]];
      }
      AppendThree(old(sent), robotOn, handled.1, robotOff);
    }

    /** The press arm of `trigger`. */
    method Press(id: nat, note: int, velocity: int)
      requires velocity > 0
      modifies this
      ensures State() == Handle(old(State()), id, velocity, note).0
      ensures sent == old(sent) + Handle(old(State()), id, velocity, note).1
    {
      if |triggerStack| > 0 {
        var (_, lastNoteId, lastVelocity) := triggerStack[|triggerStack| - 1];
        sent := sent + [[128, lastNoteId, lastVelocity]];
      }
      triggerStack := triggerStack + [(id, note, velocity)];
      sent := sent + [[144, note, velocity]];
      triggering := triggering + {id};
    }

    /** The release arm of `trigger`. */
    method Release(id: nat)
      modifies this
      ensures State() == Handle(old(State()), id, 0, 0).0
      ensures sent == old(sent) + Handle(old(State()), id, 0, 0).1
    {
      ghost var stack := triggerStack;
      ghost var rest := Remaining(stack, id);
      var shouldUpdate := false;
      if |triggerStack| > 0 {
        var (lastId, lastNoteId, _) := triggerStack[|triggerStack| - 1];
        if lastId == id {
          sent := sent + [[128, lastNoteId, 0]];
          shouldUpdate := true;
        }
      }
      triggerStack := Remaining(triggerStack, id);
      triggering := triggering - {id};
      if shouldUpdate && |triggerStack| > 0 {
        var (_, lastNoteId, lastVelocity) := triggerStack[|triggerStack| - 1];
        sent := sent + [[144, lastNoteId, lastVelocity]];
      }
      assert triggerStack == rest;
    }

    /** `on_tick`: the top voice is retuned as `RetuneTop` says; with more
        than one voice held, every voice's stored note is then brought up
        to date without sending anything. */
    method OnTick()
      modifies this`triggerStack, this`sent
      ensures |triggerStack| == |old(triggerStack)|
      ensures forall i :: 0 <= i < |triggerStack| ==>
        triggerStack[i].0 == old(triggerStack)[i].0 && triggerStack[i].2 == old(triggerStack)[i].2
      ensures |old(triggerStack)| == 0 ==> sent == old(sent)
      ensures |old(triggerStack)| > 0 ==>
        var note := old(NoteOf(triggerStack[|triggerStack| - 1].0));
        sent == old(sent) + RetuneTop(old(triggerStack), note).1
        && triggerStack[|triggerStack| - 1].1 == note
      ensures |old(triggerStack)| > 1 ==> forall i :: 0 <= i < |triggerStack| ==>
        triggerStack[i].1 == old(NoteOf(triggerStack[i].0))
    {
      ghost var stack := triggerStack;
      ghost var top := if |stack| > 0 then NoteOf(stack[|stack| - 1].0) else 0;
      RetuneTopNow();
      RetuneTopKeepsVoices(stack, top);
      if |triggerStack| > 1 {
        UpdateAll();
      }
    }

    /** `on_tick`'s first step: the top voice retuned to the note its id
        would play now. */
    method RetuneTopNow()
      modifies this`triggerStack, this`sent
      ensures |old(triggerStack)| == 0 ==> triggerStack == old(triggerStack) && sent == old(sent)
      ensures |old(triggerStack)| > 0 ==>
        var note := old(NoteOf(triggerStack[|triggerStack| - 1].0));
        triggerStack == RetuneTop(old(triggerStack), note).0
        && sent == old(sent) + RetuneTop(old(triggerStack), note).1
    {
      if |triggerStack| > 0 {
        var newNoteId := NoteId(triggerStack[|triggerStack| - 1].0);
        RetuneTopWith(newNoteId);
      }
    }

    /** `on_tick`'s first step once the top id's note is known. */
    method RetuneTopWith(newNoteId: int)
      modifies this`triggerStack, this`sent
      ensures triggerStack == RetuneTop(old(triggerStack), newNoteId).0
      ensures sent == old(sent) + RetuneTop(old(triggerStack), newNoteId).1
    {
      if |triggerStack| > 0 {
        var (lastId, lastNoteId, lastVelocity) := triggerStack[|triggerStack| - 1];
        if lastNoteId != newNoteId {
          sent := sent + [[144, newNoteId, lastVelocity], [128, lastNoteId, 0]];
          triggerStack := triggerStack[..|triggerStack| - 1] + [(lastId, newNoteId, lastVelocity)];
        }
      }
    }

    /** `on_tick`'s second step: every voice's note set to the one its id
        would play now. */
    method UpdateAll()
      modifies this`triggerStack
      ensures |triggerStack| == |old(triggerStack)|
      ensures forall i :: 0 <= i < |triggerStack| ==>
        triggerStack[i].0 == old(triggerStack)[i].0 && triggerStack[i].2 == old(triggerStack)[i].2
        && triggerStack[i].1 == old(NoteOf(triggerStack[i].0))
    {
      var i := 0;
      while i < |triggerStack|
        invariant 0 <= i <= |triggerStack| == |old(triggerStack)|
        invariant forall j :: 0 <= j < |triggerStack| ==>
          triggerStack[j].0 == old(triggerStack)[j].0 && triggerStack[j].2 == old(triggerStack)[j].2
        invariant forall j :: 0 <= j < i ==>
          triggerStack[j].1 == old(NoteOf(triggerStack[j].0))
      {
        var (lastId, lastNoteId, lastVelocity) := triggerStack[i];
        var newNoteId := NoteId(lastId);
        if lastNoteId != newNoteId {
          triggerStack := triggerStack[i := (lastId, newNoteId, lastVelocity)];
        }
        i := i + 1;
      }
    }
  }
}
