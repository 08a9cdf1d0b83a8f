# Loop Drop: a verified model of the looper core

Loop Drop is a live MIDI looper. A Launchpad grid records and replays note
triggers. Twister knob controllers record and replay controller automation.
"Device chunks" turn grid ids into the notes and controller messages of
particular instruments: drum machines, samplers, keyboards and voice
transformers.

This Dafny project models the logic of that core and proves what it
promises:

- **Musical time.** `MidiTime` is fixed-point time: 24 ticks per beat and 4
  sub-ticks per tick. The model covers its exact arithmetic, quantisation,
  rounding and halving.
- **Loop recording and undo.**
  - Sorted loop events, with insert-or-replace, half-open range slicing and
    "event at or before" lookup.
  - The per-id loop recorder.
  - Composition of loop transforms.
  - The loop undo/redo stacks.
- **Pitch.**
  - The scale note of a degree.
  - The chord-inversion and third offsets of the keyboards.
  - The VT-4 key computation.
- **Launchpad helpers.**
  - Repeat grid, powers of two, grid map, id-set difference and velocity
    curve.
  - The Launchpad layout System Exclusive messages and the tempo-page
    toggle.
- **The three Twister message loops.** Knob decoding, freeze and cue, the
  guard that keeps a knob turn from fighting its own loop, recording, and
  the modulator round robin.
- **Output throttling.**
- **Every device chunk.** Each one is a small state machine over held
  notes, id stacks, offset sums, choke groups or slice counters.

Modelling conventions:

- **The message log.** Every MIDI message a device sends is appended to a
  ghost log (`sent`), as the list of its bytes. The status bytes are the
  channel voice messages of the MIDI 1.0 Detailed Specification:
  - note-on 144 (0x90);
  - note-off 128 (0x80);
  - control change 176 (0xB0).
- **Shared state.** Values the source shares behind `Arc<Mutex<…>>` or
  atomics become small classes with plain fields that several devices
  reference. This covers the scale and offset, the choke switches, the
  bank offsets and the looper parameters.
- **Hash maps.** `HashMap` and `HashSet` become Dafny maps and sets.
  Where the source iterates over one, the model lets any order happen.
- **Integer arithmetic.**
  - Rust's `/` and `%` truncate toward zero. Module `RustInt` writes them
    out (`TruncDiv`, `TruncRem`, `Modulo`), because Dafny's operators are
    Euclidean.
  - Casts with `as u8` and `as u32` are modelled as wrap-around (`AsU8`,
    `AsU32`). That is what a release build does; a debug build panics on
    the same arithmetic overflow.
- **Source panics.** Where the source would panic, the model has a
  precondition instead:
  - a trigger list must be non-empty before it is indexed modulo its
    length (MIDI and CC triggers);
  - the TR-08 and Volca Sample tables are only indexed below 16;
  - the slicer's mode rate must be positive;
  - the third offset of the keyboard must lie within five steps of its
    centre;
  - the clock pulse divider must not be zero, since the source takes `%`
    by it (`ClockPulses.ClockPulse.Schedule`);
  - a range over a range needs the earlier range to have whole ticks,
    since the source takes the position modulo its length
    (`LoopTransforms.Apply`, `CanApply`);
  - a Twister message must be long enough for the bytes the source
    indexes (`TwisterLoops.Decode`);
  - an SP-404 MK2 input message must be long enough for the bytes the
    source indexes (`Sp404Mk2s.OnInput`);
  - the repeat rate must have whole ticks, and the sub-ticks of offset and
    rate must fit a `u8` sum (`LoopGridLaunchpad.NextRepeat`).
- **Where the code and its own unit tests disagree, the model follows the
  code.** The unit tests for `MidiTime` addition and subtraction expect
  results for eight sub-ticks per tick. The code has four. The model states
  what the code gives for those inputs
  (`MidiTimes.SourceAddTestAssumesEightSubTicks`).

## Model

| member | source | states |
|---|---|---|
| MidiTimes.FromTicks | src/midi_time.rs:22-27 | a whole number of ticks, normalised, measuring four sub-ticks per tick |
| MidiTimes.FromSubTicks | src/midi_time.rs:29-34 | folds a sub-tick count into ticks and sub-ticks below four with the same total |
| MidiTimes.New | src/midi_time.rs:12-21 | the result is normalised even when the sub-ticks overflow, and measures ticks*4 + sub-ticks |
| MidiTimes.HalfTick | src/midi_time.rs:44-46 | two half ticks make one tick |
| MidiTimes.FromBeats | src/midi_time.rs:48-50 | 24 ticks per beat, no sub-ticks |
| MidiTimes.FromMeasure | src/midi_time.rs:52-54 | whole ticks, the beats' tick count divided by the divider rounded toward zero |
| MidiTimes.QuantizeGrid | src/midi_time.rs:231-239 | half a beat below 16 ticks, two beats from 40 ticks, a beat in between |
| MidiTimes.RoundDiv | src/midi_time.rs:56-60 | the float division rounded to the nearest integer, halves away from zero |
| MidiTimes.QuantizeLength | src/midi_time.rs:56-60 | a whole-tick multiple of the grid within half a grid of the length |
| MidiTimes.Half | src/midi_time.rs:62-77 | for a non-negative time, exactly half of it rounded down to a sub-tick |
| MidiTimes.HalfOfNegativeOddTicks | src/midi_time.rs:62-77 | half of minus one tick comes out as plus half a tick, not half of the time |
| MidiTimes.HalfFloor | src/midi_time.rs:62-77 | half of any time, rounded down to a sub-tick, normalised |
| MidiTimes.HalfAgreesForNonNegative | src/midi_time.rs:62-77 | the source's half and the floor half agree on every non-negative time |
| MidiTimes.IsZero | src/midi_time.rs:79-81 | true exactly for the time that measures zero |
| MidiTimes.IsWholeBeat | src/midi_time.rs:83-85 | no sub-ticks and ticks divisible by 24, Rust's remainder being zero exactly then |
| MidiTimes.Round | src/midi_time.rs:117-129 | a whole tick less than half a tick below, or at most half a tick above, the time |
| MidiTimes.Floor | src/midi_time.rs:131-133 | the whole tick at or before the time, within one tick of it |
| MidiTimes.Quantize | src/midi_time.rs:135-137 | a whole-tick multiple of the block, and for non-negative times the largest one not above the time |
| MidiTimes.Sub | src/midi_time.rs:164-181 | normalised, and measures the difference of the operands' totals |
| MidiTimes.Add | src/midi_time.rs:183-197 | normalised, and measures the sum of the operands' totals |
| MidiTimes.Mul | src/midi_time.rs:199-205 | the floored time times the factor |
| MidiTimes.Div | src/midi_time.rs:207-213 | whole ticks, the quotient of the ticks rounded toward zero |
| MidiTimes.Rem | src/midi_time.rs:215-229 | for a positive modulus, ticks in [0, modulus) congruent to the time's ticks; sub-ticks kept |
| MidiTimes.LessMatchesTotal | src/midi_time.rs:5-9 | the derived order and equality agree with comparing totals |
| MidiTimes.SubUndoesAdd | src/midi_time.rs:164-197 | (a + b) - b == a |
| MidiTimes.AddUndoesSub | src/midi_time.rs:164-197 | (a - b) + b == a |
| MidiTimes.SourceExamples | src/midi_time.rs:310-341 | the unit tests for the carry, the sub-tick wrap and halving four beats |
| MidiTimes.SourceSubExample | src/midi_time.rs:273-279 | one tick minus one sub-tick is zero ticks and three sub-ticks |
| MidiTimes.SourceAddTestAssumesEightSubTicks | src/midi_time.rs:283-302 | with four sub-ticks, {100,4} + {50,3} is {151,3}, not the {150,7} the test expects |
| OutputValues.Value | src/output_value.rs:15-20 | zero for Off and the velocity for On |
| OutputValues.ValueCmp | src/output_value.rs:1-5 | the derived order: Equal exactly for equal values, every On before Off, Ons by velocity |
| LoopEvents.WithPos | src/loop_event.rs:17-23 | only the position changes; id and value are kept |
| LoopEvents.Cmp | src/loop_event.rs:78-110 | Equal exactly when pos, value and id agree; otherwise by position, then Off before On, then by id |
| LoopEvents.BeforeTransitive | src/loop_event.rs:78-98 | the comparison's order is transitive |
| LoopEvents.SortedIsPosSorted | src/loop_event.rs:78-98 | a vector sorted by the comparison is sorted by position |
| LoopEvents.InsertInto | src/loop_event.rs:25-34 | keeps the vector sorted; an equal event leaves it as it was, a new one is added once |
| LoopEvents.FirstAtOrAfter | src/loop_event.rs:41-49 | the binary search with a comparator that never answers Equal lands on the first event not before the bound: every event before the index is earlier, every one from it on is not |
| LoopEvents.Range | src/loop_event.rs:36-62 | a contiguous slice holding exactly the events with start <= pos < end |
| LoopEvents.At | src/loop_event.rs:64-75 | an event at the position if there is one; when none is at the position, the last event of the collection before it (every later event lies after the position); None exactly when every event lies after the position |
| LoopRecorders.LoopRecorder.constructor | src/loop_recorder.rs:11-15 | no id has a vector yet |
| LoopRecorders.LoopRecorder.Allocate | src/loop_recorder.rs:17-26 | an unseen id gets an empty vector; recorded events never change |
| LoopRecorders.LoopRecorder.Add | src/loop_recorder.rs:28-32 | the event goes into its own id's vector by sorted insert; every other id's vector is unchanged |
| LoopRecorders.LoopRecorder.GetRangeFor | src/loop_recorder.rs:42-53 | None exactly for an id without a vector, otherwise exactly that id's events in the window |
| LoopRecorders.LoopRecorder.HasEvents | src/loop_recorder.rs:34-40 | true exactly when some On event of the id lies in the window |
| LoopRecorders.LoopRecorder.GetEventAt | src/loop_recorder.rs:55-61 | None for an unknown id; otherwise the event at the position, else the last event of the id's vector before it (every later event lies after the position) |
| LoopRecorders.LoopRecorder.GetNextEventAt | src/loop_recorder.rs:63-72 | the first event after the position (after the exact match when there is one); None only when nothing follows |
| LoopStates.SetLoop | src/loop_state.rs:41-44 | the new loop becomes current on top of the old stack; redos untouched |
| LoopStates.Undone | src/loop_state.rs:46-56 | no change with one entry; otherwise the current loop moves onto the redo stack |
| LoopStates.Redone | src/loop_state.rs:58-66 | no change without redos; otherwise the last undone loop becomes current |
| LoopStates.RedoUndoesUndo | src/loop_state.rs:46-66 | redo right after an effective undo restores both stacks |
| LoopStates.UndoUndoesRedo | src/loop_state.rs:46-66 | undo right after a redo restores both stacks |
| LoopStates.UndoUndoesSet | src/loop_state.rs:41-56 | undo after set returns to the loop current before the set |
| LoopStates.LoopState.constructor | src/loop_state.rs:24-35 | exactly one loop {length, offset -length}, no redos |
| LoopStates.LoopState.Get | src/loop_state.rs:37-39 | the last entry of the never-empty undo stack |
| LoopStates.LoopState.Set | src/loop_state.rs:41-44 | the stacks move as SetLoop says and the observer is told the new loop |
| LoopStates.LoopState.Undo | src/loop_state.rs:46-56 | the stacks move as Undone says; the observer hears only an effective undo |
| LoopStates.LoopState.Redo | src/loop_state.rs:58-66 | the stacks move as Redone says; the observer hears only an effective redo |
| LoopTransforms.Max | src/loop_transform.rs:19 | the larger of two times under the derived order |
| LoopTransforms.Apply | src/loop_transform.rs:13-36 | None passes the previous through; Value and Repeat replace it; a range widens a repeat's rate, keeps a range's length, and otherwise replaces |
| LoopTransforms.RangeOverRangeKeepsPosition | src/loop_transform.rs:22-29 | a range over a range plays from the earlier range's position |
| LoopTransforms.PlaybackReturnsToStart | src/loop_transform.rs:23-24 | a position minus its remainder has remainder zero |
| LoopTransforms.IsActive | src/loop_transform.rs:38-43 | false exactly for None and Value(Off) |
| LoopTransforms.ApplyLaws | src/loop_transform.rs:13-36 | None on top is the identity; values and repeats ignore what is below; a range over nothing is itself |
| Chunk.CoordsFrom | src/chunk.rs:33-42 | the column is below eight and the id is recovered from row and column |
| Chunk.CoordsRoundTrip | src/chunk.rs:33-42 | inside eight columns, coordinates survive the trip through an id |
| Scales.ScaleNotesPrefix | src/scale.rs:16-21 | the loop's notes: one more than the steps taken, starting at 0 |
| Scales.AsWrittenModesCoincide | src/scale.rs:15-21 | as written, mode 0 is [0,2,4,5,7,9,10] and mode 3 plays the same notes |
| Scales.AsWrittenSixSteps | src/scale.rs:15-21 | as written, the six steps of every mode add up to 10 semitones |
| Scales.AsWrittenDegreeBound | src/scale.rs:15-23 | as written, every degree of every mode lies in [0, 10] |
| Scales.AsWrittenDegreesInRange | src/scale.rs:14-26 | as written, a note minus the root and whole octaves of seven values lies in [0, 10] |
| Scales.AsWrittenIncreasing | src/scale.rs:14-26 | as written, a higher value always gives a higher note |
| Scales.AsWrittenPeriodSix | src/scale.rs:19 | as written, scales s and s + 6 give identical notes |
| Scales.NoteAtAsWritten | src/scale.rs:14-26 | as written, a value on a multiple of seven plays the root moved by whole octaves, and every note lies 0 to 10 semitones above its octave's root |
| Scales.NoteAt | src/scale.rs:14-26 | with the corrected seven-step table, a value on a multiple of seven plays the root moved by whole octaves, and every note lies less than an octave above its octave's root |
| Scales.AsWrittenRootAtZero | src/scale.rs:14-26 | as written, value 0 plays the root |
| Scales.AsWrittenOctave | src/scale.rs:14-26 | as written, seven values up is one octave (12 semitones) up |
| Scales.MajorDegreeBound | src/scale.rs:15-23 | with the corrected table, every degree of every mode lies in [0, 12) |
| Scales.MajorModes | src/scale.rs:15-21 | with seven major steps, mode 0 is the major scale and mode 5 its relative minor |
| Scales.ScaleNotesRise | src/scale.rs:18-21 | every step of the mode is a rise |
| Scales.ScaleNotesPeriodic | src/scale.rs:19 | a mode depends on the scale only modulo the table length |
| Scales.PrefixIsDegree | src/scale.rs:16-21 | each note the loop builds is the sum of the steps before it |
| Scales.DegreeRises | src/scale.rs:18-21 | with positive steps, a later degree is higher |
| Scales.FullTurn | src/scale.rs:18-21 | a whole turn through the table adds up the same in every mode |
| Scales.ModeSpansLessThanOctave | src/scale.rs:15-21 | the top degree of every major mode is below 12 |
| Scales.NoteAtIncreasing | src/scale.rs:14-26 | with the corrected seven-step table, a higher value always gives a higher note |
| Scales.NoteAtOctave | src/scale.rs:22-25 | with the corrected seven-step table, value 0 plays the root and seven values up is one octave (12 semitones) up |
| Scales.PlayedNote | src/midi_keys.rs:43-44 | the note sent, built on the six-step table as written, is always a byte |
| Scales.PlayedNoteIsScaleNote | src/midi_keys.rs:43-44 | with no pitch or octave shift, a note already in byte range is sent unchanged |
| Scales.PlayedNoteOctave | src/midi_keys.rs:43-44 | one more octave raises the sent note by twelve, modulo the byte |
| Scales.PlayedNoteWeek | src/midi_keys.rs:43-44 | seven scale degrees up sends the same note as one octave up |
| Scales.Scale.constructor | src/scale.rs:10-12 | stores root and scale |
| Scales.Scale.GetNoteAt | src/scale.rs:14-26 | the loop over the six-step table as written gives NoteAtAsWritten: the root, plus 12 per floor(value / 7), plus the mode's degree value mod 7 |
| Scales.Scale.BuildScaleNotes | src/scale.rs:16-21 | the loop builds exactly the mode's seven notes |
| Scales.Scale.PlayedNoteAt | src/midi_keys.rs:43-44 | the six-step scale note as written, moved by pitch and octave, cut to a byte |
| Scales.Offset.constructor | src/scale.rs:40-48 | the given octave with third, offset and pitch at zero |
| ThrottledOutputs.HeldMessagesIn | src/throttled_output.rs:20-22 | one message per held key |
| ThrottledOutputs.HeldMessagesSnoc | src/throttled_output.rs:20-22 | sending one more held key appends exactly its message |
| ThrottledOutputs.ThrottledOutput.constructor | src/throttled_output.rs:11-17 | nothing held, no key sent |
| ThrottledOutputs.ThrottledOutput.Flush | src/throttled_output.rs:19-25 | sends every held key's latest value exactly once in some order, then forgets held values and sent keys, so the next message of any key goes out at once |
| ThrottledOutputs.ThrottledOutput.Send | src/throttled_output.rs:27-39 | a first three-byte message per key is sent and its key recorded; a repeat is held with the last value winning; other lengths pass straight through; every held key stays a sent key |
| LoopGridLaunchpad.ToId | src/loop_grid_launchpad.rs:81-101 | the discriminant of a mode is one of 0 to 3 |
| LoopGridLaunchpad.FromId | src/loop_grid_launchpad.rs:89-96 | ids 0 to 3 name the mode with that discriminant; every other id is Immediate |
| LoopGridLaunchpad.TriggerModeRoundTrip | src/loop_grid_launchpad.rs:88-101 | from_id(to_id(m)) == m for every mode |
| LoopGridLaunchpad.RepeatRatesArePositive | src/loop_grid_launchpad.rs:44-53 | the eight repeat rates are positive whole numbers of ticks |
| LoopGridLaunchpad.MaybeUpdate | src/loop_grid_launchpad.rs:2658-2680 | always stores the new value; reports it exactly when the key was absent or its on/off state flipped |
| LoopGridLaunchpad.PadDigits | src/loop_grid_launchpad.rs:2682-2696 | each grid pad's note number has tens digit 8 - row and units digit col + 1, and maps back to its id |
| LoopGridLaunchpad.PadMidiRoundTrip | src/loop_grid_launchpad.rs:2682-2696 | a pad note number maps to an id below 64 that maps back to it |
| LoopGridLaunchpad.GetGridMap | src/loop_grid_launchpad.rs:2682-2696 | ids 0 to 63 and the 64 pad note numbers, paired as (8-r)*10+c+1, in two mutually inverse maps |
| LoopGridLaunchpad.FillRow | src/loop_grid_launchpad.rs:2686-2693 | one pass of the outer loop adds the row's eight pads to both maps |
| LoopGridLaunchpad.AddPad | src/loop_grid_launchpad.rs:2688-2691 | one pass of the inner loop adds one pad to both maps |
| LoopGridLaunchpad.GridMapsInverse | src/loop_grid_launchpad.rs:2682-2696 | maps filled for all 64 pads are inverse to each other |
| LoopGridLaunchpad.UpdateIds | src/loop_grid_launchpad.rs:2698-2723 | b becomes a; added lists a \ b and removed lists b \ a, each exactly once |
| LoopGridLaunchpad.NextRepeatInWindow | src/loop_grid_launchpad.rs:2731-2736 | for a positive whole-tick rate, pos <= result < pos + rate, on the offset's grid |
| LoopGridLaunchpad.NextRepeat | src/loop_grid_launchpad.rs:2731-2736 | the next repeat is always a valid time, and on a whole-tick rate it keeps the offset's sub-ticks |
| LoopGridLaunchpad.RepeatRoot | src/loop_grid_launchpad.rs:2732 | the quantised position plus the offset's remainder is on the offset's grid within a rate of pos |
| LoopGridLaunchpad.PowerOfTwoGap | src/loop_grid_launchpad.rs:2750-2764 | no power of two lies strictly between two consecutive ones |
| LoopGridLaunchpad.NextPowerOfTwo | src/loop_grid_launchpad.rs:2750-2756 | the least power of two strictly greater than a |
| LoopGridLaunchpad.PrevPowerOfTwo | src/loop_grid_launchpad.rs:2758-2764 | 0 for a <= 1; otherwise the greatest power of two strictly below a |
| LoopGridLaunchpad.AdjustVelocityBounds | src/loop_grid_launchpad.rs:2806-2814 | never above 127 or the input; zero exactly at or below the threshold |
| LoopGridLaunchpad.AdjustVelocityMonotone | src/loop_grid_launchpad.rs:2806-2814 | a harder press never gives a softer velocity |
| LoopGridLaunchpad.AdjustVelocitySourceTests | src/loop_grid_launchpad.rs:2816-2830 | the values the source's unit test pins down |
| LoopGridLaunchpad.AdjustVelocity | src/loop_grid_launchpad.rs:2806-2814 | the adjusted velocity is never above 127, and a full press stays at 127 |
| LaunchpadTempos.GetModeMessage | src/controllers/launchpad_tempo.rs:51-53 | the layout message is always 11 bytes, a System Exclusive frame (F0 … F7) carrying Novation's manufacturer id 00 20 29 |
| LaunchpadTempos.GetMode | src/controllers/launchpad_tempo.rs:44-49 | only an 11-byte message can report a layout |
| LaunchpadTempos.GetModeOfMessage | src/controllers/launchpad_tempo.rs:44-53 | get_mode(get_mode_message(m)) == Some(m) for every layout |
| LaunchpadTempos.GetModeMessageOfMode | src/controllers/launchpad_tempo.rs:44-53 | any message that reports a layout is exactly that layout's message, so every other message reports None |
| LaunchpadTempos.LaunchpadTempo.constructor | src/controllers/launchpad_tempo.rs:12-14 | no layout seen, nothing sent |
| LaunchpadTempos.LaunchpadTempo.OnMessage | src/controllers/launchpad_tempo.rs:16-34 | a second programmer report in a row sends the tempo layout; any layout report after settings sends the programmer layout; the last layout seen is always overwritten |
| ClockPulses.PulsesAtOnePastMultiple | src/controllers/clock_pulse.rs:26 | for a positive divider, Rust's remainder test pulses exactly on the ticks one past a multiple of the divider (so every tick with divider 1) |
| ClockPulses.PulsesArePeriodic | src/controllers/clock_pulse.rs:26 | the pulse train repeats every divider ticks |
| ClockPulses.PulsesAt | src/controllers/clock_pulse.rs:26 | divider 1 pulses on every tick; over the first divider ticks from tick 1 only tick 1 pulses |
| ClockPulses.ClockPulse.constructor | src/controllers/clock_pulse.rs:11-21 | stores channel and divider, nothing sent |
| ClockPulses.ClockPulse.Schedule | src/controllers/clock_pulse.rs:25-34 | on a pulse tick sends note 36 on then off on the channel; otherwise sends nothing; fields never change |
| Vt4Keys.ModeOffsetsAreMajorScale | src/controllers/vt4_key.rs:47-59 | the mode offsets 0, 2, 4, 5, 7, 9, 11 are the notes of the major scale |
| Vt4Keys.GetModeOffset | src/controllers/vt4_key.rs:47-59 | the sum of the first min(max(mode, 0), 6) major intervals, always within an octave |
| Vt4Keys.KeyFor | src/controllers/vt4_key.rs:29-34 | the key sent is always in [0, 12) |
| Vt4Keys.ModeRow | src/controllers/vt4_key.rs:47-59 | each of the seven major modes is the row of the mode table |
| Vt4Keys.ModeDegreeInKey | src/controllers/vt4_key.rs:29-34 | each degree of each major mode, raised by the mode's offset, is a degree of the major key |
| Vt4Keys.NoteAtInVt4Key | src/controllers/vt4_key.rs:29-34 | every note the keyboards play lies in the major key the VT-4 is sent |
| Vt4Keys.ModeDegree | src/controllers/vt4_key.rs:29-34 | a played note splits into octave and a mode degree whose shift by the mode offset is in the key |
| Vt4Keys.KeyForByMode | src/controllers/vt4_key.rs:29-34 | the key is the root's pitch class minus the offset of the scale's mode modulo seven |
| Vt4Keys.NoteAtByMode | src/scale.rs:14-26 | a played note is the root, plus octaves, plus the mode table entry of its degree |
| Vt4Keys.KeyOffsetArithmetic | src/controllers/vt4_key.rs:30-33 | moving a note and the key by the same offset and whole octaves keeps its pitch class relative to the key |
| Vt4Keys.AsWrittenLeavesVt4Key | src/scale.rs:15 | with the six-step table, a C scale plays a B flat outside the C major key sent to the VT-4 |
| Vt4Keys.VT4Key.constructor | src/controllers/vt4_key.rs:14-21 | no key sent yet |
| Vt4Keys.VT4Key.Schedule | src/controllers/vt4_key.rs:25-40 | the current key is always remembered; control change 48 with it is sent exactly when it differs from the key last sent, so a second call with an unchanged scale sends nothing |
| Vt4Devices.VT4.constructor | src/devices/vt4.rs:18-23 | an inner keyboard on channel 1 with nothing held, no key sent |
| Vt4Devices.VT4.Trigger | src/devices/vt4.rs:27-29 | exactly the inner keyboard's trigger; the key is untouched |
| Vt4Devices.VT4.OnTick | src/devices/vt4.rs:31-47 | [176, 48, key] is sent exactly when the key of the current scale changes, and the key is remembered |
| TwisterLoops.LoopEnd | src/controllers/twister.rs:142 | the end of a loop is a valid time whose tick total is the loop's offset plus its length |
| TwisterLoops.Decode | src/controllers/twister.rs:41-54 | status 176 is a knob turn carrying the control of the id and the value; 177 a push whose recording flag is value > 0; 179 with id below 4 and value 127 a bank pick of that bank; 179 with a left or right button id a press exactly when value > 0; every other status is ignored |
| TwisterLoops.AllowedMeansLoopEnded | src/controllers/twister.rs:140-146 | a knob with a loop may record exactly when the loop's offset plus length plus eight ticks lies before the current position |
| TwisterLoops.Allowed | src/controllers/twister.rs:140-146 | a knob without a loop may always record; a knob allowed to record over its loop has a loop ending at least eight ticks before the position |
| TwisterLoops.RecordedLoopEndsNow | src/controllers/twister.rs:290-299 | ending a recording keeps a loop exactly when the quantised length is at least sixteen ticks; that loop has the quantised length and ends at the current position; no other knob's loop changes |
| TwisterLoops.EndRecording | src/controllers/twister.rs:290-299 | no other knob's loop changes; the knob keeps a loop exactly when the quantised length is at least sixteen ticks, and that loop has the quantised length |
| TwisterLoops.EndRecordingKeepsValid | src/controllers/twister.rs:290-299 | ending a recording keeps every loop spanning valid times |
| TwisterLoops.ButtonStep | src/controllers/twister.rs:118-134 | a press freezes when neither frozen nor cueing, enters cueing when frozen and not cueing, and leaves cueing otherwise; a release keeps cueing and stays frozen only when frozen with cued values held |
| TwisterLoops.PressesCycle | src/controllers/twister.rs:120-129 | three presses from the unfrozen state freeze, then cue, then leave the cue while staying frozen |
| TwisterLoops.AllocateKnobs | src/controllers/twister.rs:105-111 | after the start-up loop the recorder holds a vector for every knob id, empty for each new one, and keeps the vectors it had |
| TwisterLoops.FreezeParams.constructor | src/loop_grid_launchpad.rs:67-78 | the given freeze, cue and bank, no reset pending |
| TwisterLoops.KnobLooper.constructor | src/controllers/twister.rs:56-71 | a controller at position zero holding the given start values, with no loops, recordings, freeze or cue, and nothing queued or sent |
| TwisterLoops.KnobLooper.Button | src/controllers/twister.rs:118-134 | the shared freeze and cue flags become ButtonStep of their old values, with cued values held exactly when a cue exists |
| TwisterLoops.KnobLooper.BankChange | src/controllers/twister.rs:135-138 | the shared bank becomes the chosen bank |
| TwisterLoops.KnobLooper.ControlChange | src/controllers/twister.rs:139-158 | a known knob whose loop has ended (or that has none) queues one loop event with its id, the value and the current position; otherwise nothing is queued |
| TwisterLoops.KnobLooper.HandleEvent | src/controllers/twister.rs:259-285 | a non-replayed event drops the knob's loop unless cueing and is added to an open cue while cueing; the knob value follows only replayed or uncued events; a send is queued for replayed events and uncued user turns, a refresh always; the event joins the recorder under its id and no other id's events change |
| TwisterLoops.KnobLooper.UpdateKnob | src/controllers/twister.rs:263-275 | the loop, cue and last-value updates of an event, with nothing queued |
| TwisterLoops.KnobLooper.Recording | src/controllers/twister.rs:287-303 | starting stores the current position; stopping a started recording sets the knob's loop by EndRecording and forgets the start; stopping one never started changes no loop |
| TwisterLoops.KnobLooper.ShownValue | src/controllers/twister.rs:306-316 | the cued value while cueing with one held for the knob, otherwise the last value, zero when none |
| TwisterLoops.KnobLooper.Animation | src/controllers/twister.rs:321-331 | 61 exactly for a cued knob, 15 for an uncued knob while cueing, 59 when frozen and not cueing, 13 for a looping knob otherwise, 0 for the rest |
| TwisterLoops.KnobLooper.Refresh | src/controllers/twister.rs:305-334 | a known knob is sent [176, id, shown value] then [181, id, animation]; an unknown control sends nothing |
| TwisterLoops.KnobLooper.ResetAutomation | src/controllers/twister.rs:338-346 | a pending reset is acknowledged and clears every loop; otherwise the loops stay |
| TwisterLoops.KnobLooper.AnnounceBank | src/controllers/twister.rs:348-351 | the bank is remembered and [179, bank, 127] is sent exactly when it changed |
| TwisterLoops.KnobLooper.SyncFreeze | src/controllers/twister.rs:353-390 | entering a freeze snapshots values and loops unchanged; leaving it restores the snapshot loops, the snapshot values with the cued values on top, and drops the cue; no change leaves everything |
| TwisterLoops.KnobLooper.SyncCue | src/controllers/twister.rs:392-403 | cueing follows the shared flag; entering a cue opens an empty one unless one is held; on the variant that swaps pages, leaving a cue sends the next bank page and then the current one |
| TwisterLoops.KnobLooper.Schedule | src/controllers/twister.rs:336-429 | after a tick the reset is acknowledged, bank, freeze and cue follow the shared parameters, the position is the new one, and loops, values, snapshots and cue are exactly the composition of the reset, freeze and cue rules |
| TwisterControls.FromId | src/controllers/twister.rs:488-518 | ids 64 and above decode to no control; ids under 16 are channel volume (even) and filter (odd) of channel id/2; 16 to 29 reverb and delay; 30 and 31 modulators 14 and 15; 48 to 61 modulators 0 to 13 |
| TwisterControls.KnobOfFromId | src/controllers/twister.rs:488-529 | every knob below 64 is found again from the control it decodes to |
| TwisterControls.FromIdKnobOf | src/controllers/twister.rs:488-529 | every control that has a knob has one below 64 that decodes back to it |
| TwisterControls.FromIdInjective | src/controllers/twister.rs:488-518 | two knobs below 64 that decode to the same control are the same knob |
| TwisterControls.GetControlIds | src/controllers/twister.rs:520-529 | the map holds exactly the controls that have a knob, each mapped to a knob below 64 that decodes to it, and every knob below 64 is the entry of its control |
| TwisterControls.NewTwister | src/controllers/twister.rs:28-101 | a fresh looper over the Twister's controls, decoding ids by FromId, knowing exactly the controls that have a knob, without the page swap, holding exactly the start values DefaultOf gives |
| TwisterControls.StartValues | src/controllers/twister.rs:76-101 | the start map holds a control exactly when DefaultOf gives it a value, and that value: volume 80, reverb and delay 0, filter and filter LFO amount 64, duck 20 on channels 0 to 7; swing, duck release, LFO rate and skew 64; each configured modulator slot its own start value |
| ModTwisters.FromId | src/controllers/mod_twister.rs:452-456 | knob id is modulator id |
| ModTwisters.GetControlIds | src/controllers/mod_twister.rs:458-467 | exactly modulators 0 to 63, each mapped to its own index |
| ModTwisters.NewModTwister | src/controllers/mod_twister.rs:25-122 | a fresh looper over the modulators, knowing modulators 0 to 63, with the page swap on leaving a cue, holding exactly the configured modulator start values |
| ModTwisters.StartValues | src/controllers/mod_twister.rs:91-122 | the start map holds modulator slot i exactly when slot i is configured, with that slot's start value, and nothing else |
| ModTwisters.NextStep | src/controllers/mod_twister.rs:402-403 | the next step stays within the list and wraps from the last entry to the first |
| ModTwisters.StepAfter | src/controllers/mod_twister.rs:402-403 | the step after any number of ticks stays within the list |
| ModTwisters.StepAfterCompose | src/controllers/mod_twister.rs:402-403 | ticks taken in two runs end where the same ticks taken at once do |
| ModTwisters.StepAfterClimbs | src/controllers/mod_twister.rs:402-403 | before the end of the list the step climbs by one per tick |
| ModTwisters.StepAfterWraps | src/controllers/mod_twister.rs:402-403 | from any step, the step is back at the head after the ticks left in the list |
| ModTwisters.EveryEntryChosen | src/controllers/mod_twister.rs:394-404 | every entry of the list is chosen within fewer ticks than the list's length, from any step |
| ModTwisters.StepsRepeat | src/controllers/mod_twister.rs:402-403 | after as many ticks as the list is long the step returns to where it was |
| ModTwisters.RoundRobin.constructor | src/controllers/mod_twister.rs:29-38 | the given list, step zero, nothing sent |
| ModTwisters.RoundRobin.Tick | src/controllers/mod_twister.rs:394-404 | with a non-empty list the modulator at the step is sent unless a loop event went to it this tick, and the step moves to NextStep; an empty list does nothing |
| TwisterDevices.FromId | src/devices/twister.rs:620-667 | exactly the ids below 64 decode to a control |
| TwisterDevices.FromIdPages | src/devices/twister.rs:620-667 | page A is volume and filter pairs; page B reverb and delay pairs with the delay divider and feedback on its last pair; page C the duck release and LFO rate, then duck and filter LFO pairs; page D the instrument pairs |
| TwisterDevices.KnobDigits | src/devices/twister.rs:621-624 | the knob of page, pair and side has exactly those as its page, pair and side digits |
| TwisterDevices.KnobOfFromId | src/devices/twister.rs:620-690 | every knob below 64 decodes to a control whose map entry is the last knob sharing that control |
| TwisterDevices.MixerKnob | src/devices/twister.rs:626-640 | KnobOfFromId on the three mixer pages |
| TwisterDevices.InstrumentKnob | src/devices/twister.rs:642-666 | KnobOfFromId on the instrument page |
| TwisterDevices.FirstKnobs | src/devices/twister.rs:642-666 | the first control of each instrument pair is kept at the pair's last twin |
| TwisterDevices.SecondKnobs | src/devices/twister.rs:642-666 | the second control of each instrument pair is kept at the pair's last twin |
| TwisterDevices.FromIdKnobOf | src/devices/twister.rs:620-690 | a control with a map entry has one below 64 that decodes back to it |
| TwisterDevices.ChannelKnobOf | src/devices/twister.rs:626-640 | FromIdKnobOf for the per-channel controls |
| TwisterDevices.FixedKnobOf | src/devices/twister.rs:630-666 | FromIdKnobOf for the controls with a knob of their own |
| TwisterDevices.SharedKnobs | src/devices/twister.rs:650-666 | two knobs decode to the same control exactly when they have the same last twin: both sampler pairs share their controls, and knobs 31 and 63 share the delay feedback |
| TwisterDevices.GetControlIds | src/devices/twister.rs:681-690 | the map holds exactly the controls some knob decodes to, each at the last such knob |
| TwisterDevices.LastKnobsKept | src/devices/twister.rs:681-690 | a map from every decoded control to a knob decoding to it, never below a knob with the same control, is exactly the kept-knob map |
| TwisterDevices.KeptKnob | src/devices/twister.rs:681-690 | one control of such a map is kept at the map's knob |
| TwisterDevices.LowBitsMask | src/devices/twister.rs:704-706 | masking a byte with 0b0111_1111 is its remainder modulo 128 |
| TwisterDevices.Mask7 | src/devices/twister.rs:704-706 | the result is below 128, equals a byte below 128, and drops 128 from one above |
| TwisterDevices.MsbLsb | src/devices/twister.rs:692-702 | both halves are seven-bit, and a 14-bit value is its second half times 128 plus its first |
| TwisterDevices.SevenBitHalves | src/devices/twister.rs:692-702 | the low byte's low seven bits are the value's, the high half of a 14-bit value fits in seven bits, and the halves recombine to the value |
| TwisterDevices.DeviceTwister.constructor | src/devices/twister.rs:114-180 | position zero, the given default knob values, no loops, recordings or freeze, nothing queued or sent |
| TwisterDevices.DeviceStartValues | src/devices/twister.rs:143-181 | the start map holds a control exactly when DeviceDefault gives it a value, and that value: volume 100, reverb and delay 0, filter, filter LFO amount and duck 64 on channels 0 to 7 (the filter's first 0 overwritten); delay divider 115, external filter 60, second CV 0; LFO rate and skew, duck release, sampler, synth, kick, bass and external pitch, first CV, delay feedback, kick decay, bass wave and swing 64 |
| TwisterDevices.InsertGlobals | src/devices/twister.rs:159-181 | the inserts after the channel loop add exactly the global controls GlobalStart names, with their start values, and keep every other entry |
| TwisterDevices.NewDeviceTwister | src/devices/twister.rs:114-190 | a fresh, unfrozen device Twister on bank 0 knowing exactly the controls that have a knob, holding exactly the start values DeviceDefault gives, with a recorder holding an empty vector for exactly the knob ids |
| TwisterDevices.DeviceTwister.Button | src/devices/twister.rs:197-204 | either button sets the shared freeze to whether it is held |
| TwisterDevices.DeviceTwister.ControlChange | src/devices/twister.rs:209-229 | a known knob whose loop has ended (or that has none) drops its loop and queues one loop event at the current position; otherwise nothing changes |
| TwisterDevices.DeviceTwister.HandleEvent | src/devices/twister.rs:415-428 | every event sets its knob's value; a send is queued only for this Twister's own events, a refresh always; the event joins the recorder under its id and no other id's events change |
| TwisterDevices.DeviceTwister.Recording | src/devices/twister.rs:430-446 | starting stores the current position; stopping a started recording sets the knob's loop by EndRecording; stopping one never started changes no loop |
| TwisterDevices.DeviceTwister.Refresh | src/devices/twister.rs:448-460 | a known knob is sent its value (zero before it has one) and animation 13 when looping, 0 otherwise; an unknown control sends nothing |
| TwisterDevices.DeviceTwister.SyncFreeze | src/devices/twister.rs:484-505 | entering a freeze snapshots values and loops; leaving it restores both snapshots; no change leaves everything |
| TwisterDevices.DeviceTwister.Schedule | src/devices/twister.rs:462-505 | after a tick the reset is acknowledged, the bank and freeze follow the shared parameters, the new bank is sent exactly when it changed, the position is the new one, and loops and values are the composition of the reset and freeze rules |
| MidiKeyNotes.ThirdOffsetsRise | src/midi_keys.rs:39-42 | a higher third picks a strictly higher entry of the offsets table |
| MidiKeyNotes.CentreThirdPlaysDegree | src/midi_keys.rs:39-44 | the centre third with no scale offset plays the key's own degree |
| MidiKeyNotes.KeyNote | src/midi_keys.rs:39-44 | the note is a byte, and with the centre third it is the played note of the degree moved only by the scale offset |
| MidiKeyNotes.KeyNoteWeek | src/midi_keys.rs:39-44 | the key seven grid ids up plays twelve semitones higher, modulo the byte cut |
| MidiKeyNotes.MidiKeys.constructor | src/midi_keys.rs:18-26 | the given channel, scale and offset, nothing held or sent |
| MidiKeyNotes.MidiKeys.Note | src/midi_keys.rs:28-49 | a press sends a note-on of the degree moved by the third and the scale offset, on the six-step table as written, and remembers it under the id; a release of a held id sends a zero-velocity note-on of the remembered note and forgets it; a release of an id not held does nothing; every held note stays a byte |
| MidiKeysDevices.InversionKeepsColumnInRow | src/devices/midi_keys.rs:36-47 | with an offset inside the inversion window, the key's column plus the inverted offset stays between 0 and 8 |
| MidiKeysDevices.InvertedShift | src/devices/midi_keys.rs:36-47 | the inversion moves the degree by seven degrees up, seven down, or not at all |
| MidiKeysDevices.WeekApart | src/devices/midi_keys.rs:40-49 | with the six-step table as written, degrees seven apart play notes an octave apart, so the inversion keeps the chord's pitch classes |
| MidiKeysDevices.ChordNote | src/devices/midi_keys.rs:33-50 | the note is a byte, and with no scale offset no inversion happens: the played note of the key's degree moved by the base |
| MidiKeysDevices.Times | src/devices/midi_keys.rs:58-60 | sending to every output repeats the messages once per output |
| MidiKeysDevices.MidiKeys.constructor | src/devices/midi_keys.rs:18-26 | the given outputs, channel, scale and offset, nothing held or sent |
| MidiKeysDevices.MidiKeys.CurrentNote | src/devices/midi_keys.rs:33-50 | the note a key plays under the current scale and offset is a byte, and with no scale offset it is the played note of its degree moved by the base |
| MidiKeysDevices.MidiKeys.NoteId | src/devices/midi_keys.rs:33-50 | the note, on the six-step table as written, of the key's degree moved by the inverted offset |
| MidiKeysDevices.MidiKeys.ScaleOffset | src/devices/midi_keys.rs:36-47 | the base plus the offset, moved a week down when the column would pass 8 and a week up when it would fall below 0, only for offsets within the window |
| MidiKeysDevices.MidiKeys.Trigger | src/devices/midi_keys.rs:53-72 | a press sends the current note to every output and holds it with its velocity; a release of a held id sends a zero-velocity note-on of the held note to every output and forgets it; a release of an id not held does nothing |
| MidiKeysDevices.MidiKeys.RepitchMessagesFrom | src/devices/midi_keys.rs:76-85 | the re-pitch messages depend only on the renewed entries of the ids listed |
| MidiKeysDevices.MidiKeys.RepitchStep | src/devices/midi_keys.rs:78-83 | re-pitching one more id appends, per output, the new note at the held velocity followed by a zero-velocity note-on of the old note |
| MidiKeysDevices.MidiKeys.SendToAll | src/devices/midi_keys.rs:58-60 | the messages go once to each output and nothing is held or dropped |
| MidiKeysDevices.MidiKeys.OnTick | src/devices/midi_keys.rs:74-90 | no held id is added or dropped; each one holds its current note with its old velocity; the messages are, in some order listing each changed id once, the re-pitch of exactly the ids whose note changed |
| MidiKeysDevices.MidiKeys.RepitchAdvanceChanged | src/devices/midi_keys.rs:78-83 | visiting an id whose note changed keeps the walk's invariant, recording the id and its messages |
| MidiKeysDevices.MidiKeys.RepitchAdvanceSame | src/devices/midi_keys.rs:76-78 | visiting an id whose note is unchanged keeps the invariant and records nothing |
| MidiKeysDevices.MidiKeys.Repitch | src/devices/midi_keys.rs:75-89 | the walk keeps exactly the held ids, gives each its current note with its old velocity, lists each changed id once and produces exactly their re-pitch messages |
| MonoMidiKeysDevices.TriggerKeepsConsistent | src/devices/mono_midi_keys.rs:59-105 | presses and releases keep the ids on the stack exactly the held ids |
| MonoMidiKeysDevices.ReleaseUnheld | src/devices/mono_midi_keys.rs:61-84 | releasing an id that is not held changes nothing and sends nothing |
| MonoMidiKeysDevices.ReleaseBelowTopIsSilent | src/devices/mono_midi_keys.rs:65-79 | releasing an id that is not on top of the stack sends nothing |
| MonoMidiKeysDevices.PressThenRelease | src/devices/mono_midi_keys.rs:59-105 | pressing a key not held and releasing it restores the held notes and the stack exactly |
| MonoMidiKeysDevices.ReleaseForgets | src/devices/mono_midi_keys.rs:61-84 | releasing a held id forgets its note and removes every copy of it from the stack |
| MonoMidiKeysDevices.PressThenReleaseSends | src/devices/mono_midi_keys.rs:59-105 | over a press and release of a new key: its note-on, the previous top's note-off, the previous top's note-on at its velocity again, then the key's note-off |
| MonoMidiKeysDevices.RepressTopSilences | src/devices/mono_midi_keys.rs:85-103 | a second press of the id already on top sends its new note-on followed at once by a note-off of that same note, because the top is looked up after the new note is stored |
| MonoMidiKeysDevices.RetuneKeepsConsistent | src/devices/mono_midi_keys.rs:107-124 | retuning keeps the stack and the held ids, changes no note but the top id's, and keeps them in step |
| MonoMidiKeysDevices.RetuneIdempotent | src/devices/mono_midi_keys.rs:107-124 | once retuned, retuning to the same note changes nothing and sends nothing |
| MonoMidiKeysDevices.Press | src/devices/mono_midi_keys.rs:85-103 | the id is held with its entry and pushed on the stack; the first message is its note-on, and a second one, a note-off, follows exactly when something was on top |
| MonoMidiKeysDevices.Release | src/devices/mono_midi_keys.rs:61-84 | the id is forgotten and taken off the stack; at most two messages, sent exactly when the id was held and on top, the last one its note-off |
| MonoMidiKeysDevices.Retune | src/devices/mono_midi_keys.rs:107-124 | the stack and the held ids stay; the top id holds the new note at its old velocity; messages are sent exactly when the state changes |
| MonoMidiKeysDevices.MonoMidiKeys.constructor | src/devices/mono_midi_keys.rs:21-39 | the given channel, scale, offset, octave and velocity map, nothing held, stacked or sent |
| MonoMidiKeysDevices.MonoMidiKeys.NoteId | src/devices/mono_midi_keys.rs:46-56 | the note, on the six-step table as written, of the degree moved by the base and scale offsets, with the device's own octave |
| MonoMidiKeysDevices.MonoMidiKeys.Trigger | src/devices/mono_midi_keys.rs:59-105 | a press stores and sends what Press gives for the current note and mapped velocity; a release what Release gives |
| MonoMidiKeysDevices.MonoMidiKeys.ReleaseKey | src/devices/mono_midi_keys.rs:61-84 | the held notes, stack and messages become those of Release |
| MonoMidiKeysDevices.MonoMidiKeys.PressKey | src/devices/mono_midi_keys.rs:89-102 | the held notes, stack and messages become those of Press |
| MonoMidiKeysDevices.MonoMidiKeys.OnTick | src/devices/mono_midi_keys.rs:107-124 | with an empty stack nothing changes; otherwise the state and messages are Retune's for the top id's current note |
| MonoMidiKeysDevices.MonoMidiKeys.RetuneTop | src/devices/mono_midi_keys.rs:108-123 | the state and messages become Retune's for the given note |
| NoteTriggers.ReleaseForgets | src/devices/blackbox_sample.rs:27-33 | a release forgets the id and sends one message exactly when the id was sounding |
| NoteTriggers.PressThenRelease | src/devices/blackbox_sample.rs:25-44 | pressing an id not sounding and releasing it restores the sounding map and sends a zero-velocity message for the channel and note the press recorded |
| IdStacks.Without | src/devices/mono_midi_keys.rs:83 | taking an id out never lengthens the stack |
| IdStacks.WithoutMembers | src/devices/mono_midi_keys.rs:83 | taking an id out keeps exactly the other ids |
| IdStacks.WithoutAbsent | src/devices/mono_midi_keys.rs:83 | taking out an id the stack does not hold changes nothing |
| IdStacks.WithoutTop | src/devices/mono_midi_keys.rs:65-83 | taking out the id on top after popping it gives the same stack as taking it out directly |
| IdStacks.WithoutAt | src/devices/root_select.rs:45 | on a stack without repeats, taking out the id at a position closes the gap and keeps the order of the rest |
| IdStacks.WithoutDistinct | src/devices/root_select.rs:45 | taking an id out keeps the other ids distinct |
| IdStacks.InsertDistinct | src/devices/root_select.rs:49 | inserting keeps the ids distinct, adds exactly the id, and puts it on top exactly when it was not held or already on top |
| SelectChunks.LatchDistinct | src/devices/root_select.rs:42-53 | the held buttons never repeat; a release of a held button removes it at its place and keeps the others in order; a release of a button not held changes nothing |
| SelectChunks.PressSelects | src/devices/root_select.rs:48-51 | a press of a button not held puts it on top of the stack, so it becomes the selection |
| SelectChunks.RootSelect.constructor | src/devices/root_select.rs:18-24 | the shared scale, nothing held |
| SelectChunks.RootSelect.RefreshOutput | src/devices/root_select.rs:26-38 | the root becomes 52 plus the top button; with nothing held the root stays; mode and offset never change |
| SelectChunks.RootSelect.Trigger | src/devices/root_select.rs:42-53 | the held buttons are latched; with a button held the root is 52 plus the top one and the active set is exactly that button; otherwise root and active set stay |
| SelectChunks.RootSelect.OnTick | src/devices/root_select.rs:55-59 | the root follows the top button on whole beats only |
| SelectChunks.ScaleSelect.constructor | src/devices/scale_select.rs:16-21 | the shared scale, nothing held |
| SelectChunks.ScaleSelect.RefreshOutput | src/devices/scale_select.rs:23-28 | the mode becomes the top button; with nothing held it stays; root and offset never change |
| SelectChunks.ScaleSelect.Trigger | src/devices/scale_select.rs:32-43 | the held buttons are latched; with a button held the mode is the top one and the active set is exactly that button; otherwise mode and active set stay |
| OffsetChunks.MapSumRemove | src/devices/scale_offset_chunk.rs:36 | the sum of the held steps does not depend on the order the map is walked: any key's value plus the sum of the rest |
| OffsetChunks.MapSumUpdate | src/devices/scale_offset_chunk.rs:29-36 | storing a step at a key replaces exactly what that key contributed to the sum |
| OffsetChunks.MapSumBound | src/devices/scale_offset_chunk.rs:12 | steps of magnitude at most four add up to at most four per held button |
| OffsetChunks.RecordSum | src/devices/scale_offset_chunk.rs:24-33 | a press of a new button adds its column's step to the sum, and a release of a held button subtracts its step |
| OffsetChunks.PressMovesSum | src/devices/scale_offset_chunk.rs:12-33 | pressing a new button always changes the sum, since no step is zero |
| OffsetChunks.PressThenReleaseRestores | src/devices/scale_offset_chunk.rs:24-33 | pressing and releasing a button not held restores the held steps |
| OffsetChunks.RecordValid | src/devices/scale_offset_chunk.rs:12-33 | every held step stays one of the table's, so the sum stays within four per held button |
| OffsetChunks.Sum | src/devices/scale_offset_chunk.rs:36 | the loop's total is the sum of the map's values |
| OffsetChunks.ScaleOffsetChunk.constructor | src/devices/scale_offset_chunk.rs:15-20 | the shared scale, no steps held |
| OffsetChunks.ScaleOffsetChunk.Trigger | src/devices/scale_offset_chunk.rs:24-37 | the held steps are recorded, the mode becomes their sum modulo seven (always between 0 and 6), and root and offset stay |
| OffsetChunks.RootOffsetChunk.constructor | src/devices/root_offset_chunk.rs:15-20 | the shared scale, no steps held |
| OffsetChunks.RootOffsetChunk.Trigger | src/devices/root_offset_chunk.rs:24-37 | the held steps are recorded, the scale offset becomes their sum, and root and mode stay |
| OffsetChunks.KeptStep | src/devices/offset.rs:27-30 | a press of one of the first eight buttons keeps its non-zero step; a release or another button keeps zero |
| OffsetChunks.OffsetChunk.constructor | src/devices/offset.rs:17-22 | the shared offset, no steps held |
| OffsetChunks.OffsetChunk.Trigger | src/devices/offset.rs:26-35 | the button's kept step replaces its old one, the offset becomes the new sum, which is the other buttons' steps plus this one, and the rest of the offset stays |
| VelocityMaps.Velocities.constructor | src/devices/velocity_map.rs:8 | the shared map starts empty |
| VelocityMaps.VelocityMap.constructor | src/devices/velocity_map.rs:12-16 | the given shared map |
| VelocityMaps.VelocityMap.Trigger | src/devices/velocity_map.rs:20-30 | a press stores velocity 127 for the id whatever the pressed velocity; a release forgets the id; no other id changes |
| VelocityMaps.VelocityMap.GetActive | src/devices/velocity_map.rs:32-40 | the loop collects exactly the ids the shared map holds |
| Sp404.VelocityLevels.constructor | src/devices/sp404.rs:118-125 | master level 127 and every pad level 100 |
| Sp404.Chokes.constructor | src/devices/sp404.rs:138-144 | both choke switches off |
| Sp404.BankOffset.constructor | src/devices/sp404.rs:12 | the given shared bank |
| Sp404.ScaledVelocity | src/devices/sp404.rs:51-52 | the velocity is the pad level times master/128, rounded down and capped at 127: at most 127, never above the exact product, and below the next whole number unless capped; master 128 plays the level itself |
| Sp404.PadsDistinct | src/devices/sp404.rs:45-54 | the ten banks of twelve pads play 120 different channel and note pairs |
| Sp404.PadNote | src/devices/sp404.rs:54 | the note is a byte; for the twelve pads no wrap happens: 47 plus twelve per bank within five, plus the pad |
| Sp404.PadChannel | src/devices/sp404.rs:45-49 | the first five banks play on the device's channel, and the rest exactly on the next one |
| Sp404.ChokeRange | src/devices/sp404.rs:70-95 | the pad's group always contains it and lies within the twelve pads; with both switches off it is all twelve |
| Sp404.ChokeGroupsPartition | src/devices/sp404.rs:70-95 | two pads are in each other's group exactly when they have the same group, so the groups partition the pads |
| Sp404.SP404.constructor | src/devices/sp404.rs:20-29 | the given channel and shared state, nothing sounding or sent |
| Sp404.SP404.Trigger | src/devices/sp404.rs:33-66 | a release sends a note-off for what the id recorded and forgets it; a press plays the pad's note in the current bank on that bank's channel at the scaled pad level, stopping first a different note the id still sounds |
| Sp404.SP404.GetChokesFor | src/devices/sp404.rs:67-106 | exactly the sounding pads of the id's choke group, in ascending order |
| Sp404.ChokeSwitch.constructor | src/devices/choke_switch.rs:14-16 | the given shared switches |
| Sp404.ChokeSwitch.Trigger | src/devices/choke_switch.rs:20-27 | pad 0 holds switch a and pad 1 switch b while pressed; other pads change nothing |
| Sp404.Sp404OffsetIsPad | src/devices/sp404_offset.rs:11-28 | a press picks the bank numbered by its pad modulo ten, and pressing it again changes nothing |
| Sp404.SlicerOffsetsPermute | src/devices/blackbox_slicer_offset.rs:10 | the slicer layout reaches each of the ten banks from exactly one pad |
| Sp404.ChosenOffset | src/devices/sp404_offset.rs:22-30 | a press stores an entry of the chooser's table; a release keeps the current bank |
| Sp404.Sp404Offset.constructor | src/devices/sp404_offset.rs:14-18 | the given shared bank |
| Sp404.Sp404Offset.Trigger | src/devices/sp404_offset.rs:22-30 | a press stores its pad's bank, a release keeps the bank |
| Sp404.BlackboxSlicerOffset.constructor | src/devices/blackbox_slicer_offset.rs:12-17 | the given shared bank |
| Sp404.BlackboxSlicerOffset.Trigger | src/devices/blackbox_slicer_offset.rs:21-29 | a press stores its pad's bank in the slicer layout, a release keeps the bank |
| Sp404Mk2s.ValueCount | src/devices/sp404mk2.rs:26-37 | a non-zero count means the last tap was this value, and then it is the run's length |
| Sp404Mk2s.GetBefore | src/devices/sp404mk2.rs:39-52 | a value and count come back exactly for a tap strictly before the instant, and they are the tap's |
| Sp404Mk2s.TapCounts | src/devices/sp404mk2.rs:86-96 | a tap adds one to the run of its own value, leaves every other value at zero, and restarts the run at one after a different value |
| Sp404Mk2s.TapsCount | src/devices/sp404mk2.rs:86-96 | n taps of the same value lengthen its run by n |
| Sp404Mk2s.PressCell.constructor | src/devices/sp404mk2.rs:76 | no tap recorded |
| Sp404Mk2s.OnInput | src/devices/sp404mk2.rs:79-98 | a note-on on channels 1 to 10 at pad 4 or 12 of a bank records a tap of twice the channel plus the sub-bank, one more in its run; any other message changes nothing; every run has at least one tap |
| Sp404Mk2s.Sp404Mk2.constructor | src/devices/sp404mk2.rs:68-111 | the given instance and default bank, not updating, nothing sounding or sent |
| Sp404Mk2s.Sp404Mk2.OnTick | src/devices/sp404mk2.rs:115-131 | a run idle for 200 ms is consumed; when its length is the instance number plus one the instance takes the tapped bank and its lights go out for the tick; otherwise bank and taps stay and the lights are on; nothing is sent |
| Sp404Mk2s.Sp404Mk2.CheckLit | src/devices/sp404mk2.rs:133-135 | a pad is lit exactly when the bank is not changing |
| Sp404Mk2s.Sp404Mk2.Trigger | src/devices/sp404mk2.rs:137-170 | a press plays the id's pad of the current sub-bank on channel offset/2 at the mapped velocity and raises the duck flag for the sidechain id; a release sends the note-off for what the id recorded; the bank never changes |
| Sp404Mk2s.Mk2NotesDistinct | src/devices/sp404mk2.rs:148-152 | the seven grid columns play seven different pads, all within the current sub-bank's eight notes |
| BlackboxSlicers.ModesStepEight | src/devices/blackbox_slicer.rs:111-123 | every offered mode can be divided by; direct mode spaces ids one slice apart and both auto-trigger modes eight, exactly the steps one run takes |
| BlackboxSlicers.SliceNote | src/devices/blackbox_slicer.rs:46-51 | the slice an id starts at is always a MIDI note below 128 |
| BlackboxSlicers.NoteOfSlice | src/devices/blackbox_slicer.rs:46-51 | the note is below 128, and slice s plays note 36 + s while s is at most 91 |
| BlackboxSlicers.SliceNoteExact | src/devices/blackbox_slicer.rs:46-51 | while nothing wraps, an id's slice is 36 plus the id times the increment |
| BlackboxSlicers.SliceOf | src/devices/blackbox_slicer.rs:45-52 | the note is below 128; a single bank plays every id on its channel; a split bank starts its second row at the first slice again, and with two channels ids 0 to 3 play exactly on the first |
| BlackboxSlicers.AutoStepAdvances | src/devices/blackbox_slicer.rs:68-92 | a tick moves the sounding slice up by at most one, never past 127, on the same channel and velocity; it sends at most the stop of the old slice and the start of the new one; in direct mode it does nothing |
| BlackboxSlicers.AutoStepOnRate | src/devices/blackbox_slicer.rs:75-85 | before the run's end, a tick starts the next slice exactly on whole multiples of the rate after the trigger |
| BlackboxSlicers.AutoStep | src/devices/blackbox_slicer.rs:68-92 | direct mode, no run or no sounding slice changes nothing and sends nothing; a slice keeps sounding; at most two messages |
| BlackboxSlicers.ModeCell.constructor | src/devices/blackbox_slicer.rs:154-156 | the shared mode starts as direct |
| BlackboxSlicers.BankCell.constructor | src/devices/blackbox_slicer.rs:181-183 | the shared bank starts split over channels 2 and 3 |
| BlackboxSlicers.BlackboxSlicer.constructor | src/devices/blackbox_slicer.rs:18-27 | nothing sounding, no run, position zero, nothing sent |
| BlackboxSlicers.BlackboxSlicer.Trigger | src/devices/blackbox_slicer.rs:31-66 | a press stops the slice sounding, plays the id's slice in the current bank at velocity 120 and starts a run at the current position; a release changes nothing |
| BlackboxSlicers.BlackboxSlicer.OnTick | src/devices/blackbox_slicer.rs:68-92 | the position is recorded and the sounding slice and messages are exactly one auto-trigger step |
| BlackboxSlicers.ModeChooser.constructor | src/devices/blackbox_slicer.rs:148-152 | the given shared mode |
| BlackboxSlicers.ModeChooser.Trigger | src/devices/blackbox_slicer.rs:160-169 | a press stores the mode of its id modulo three, always one the device can divide by; a release keeps it |
| BlackboxSlicers.BankChooser.constructor | src/devices/blackbox_slicer.rs:175-179 | the given shared bank |
| BlackboxSlicers.BankChooser.Trigger | src/devices/blackbox_slicer.rs:187-196 | a press stores the bank of its id modulo five; a release keeps it |
| Drums.Sixteenth | src/devices/blackbox_drums.rs:53 | a sixteenth note is six ticks |
| Drums.AccentSlotIsStep | src/devices/blackbox_drums.rs:53-54 | from the start of the song, the accent step is the position's sixteenth within the bar, and a position is on the grid exactly on a multiple of six ticks |
| Drums.AccentSlotPeriodic | src/devices/blackbox_drums.rs:53-54 | the accent step and the grid repeat every bar of 48 ticks |
| Drums.AccentSlot | src/devices/blackbox_drums.rs:53-54 | from the start of the song the step is below 8; before it the step is below 8 or wraps to the top of the u32 range |
| Drums.Accented | src/devices/blackbox_drums.rs:52-59 | the velocity stays between the base and 127; a hit off the grid or on an unheld step keeps the base; one on a held step gains 50 when that stays below 128 |
| Drums.BlofeldVelocity | src/devices/blofeld_drums.rs:53-61 | on the grid, the map's velocity for the step when it holds one; otherwise 100 |
| Drums.HeldStepAccents | src/devices/velocity_map.rs:26-28 | holding a step on the velocity map makes the Blofeld hit at 127 and the Blackbox hit 50 louder, capped at 127, on that step |
| Drums.ReleasedStepPlain | src/devices/velocity_map.rs:23-25 | releasing the step takes the accent off: the Blofeld hits at 100 and the Blackbox at the base velocity |
| Drums.BlackboxDrums.constructor | src/devices/blackbox_drums.rs:20-30 | the given channels and shared map, position zero, nothing sounding or sent |
| Drums.BlackboxDrums.OnTick | src/devices/blackbox_drums.rs:34-36 | only the position changes |
| Drums.BlackboxDrums.Trigger | src/devices/blackbox_drums.rs:38-75 | a press plays the id's drum at the accented velocity and records it, the kick also on the sync output at note 36; a release sends a zero-velocity note-on for what the id recorded, the kick also a sync note-off |
| Drums.BlackboxPerc.constructor | src/devices/blackbox_perc.rs:18-26 | the given channel and shared map, position zero, nothing sounding or sent |
| Drums.BlackboxPerc.OnTick | src/devices/blackbox_perc.rs:30-32 | only the position changes |
| Drums.BlackboxPerc.Trigger | src/devices/blackbox_perc.rs:34-60 | a press plays the id's percussion note at the accented velocity and records it; a release sends a zero-velocity note-on for what the id recorded |
| Drums.BlofeldDrums.constructor | src/devices/blofeld_drums.rs:20-30 | the given channels and shared map, position zero, nothing sounding or sent |
| Drums.BlofeldDrums.OnTick | src/devices/blofeld_drums.rs:34-36 | only the position changes |
| Drums.BlofeldDrums.Trigger | src/devices/blofeld_drums.rs:38-84 | a press plays the id's drum at the map's velocity for the step and records it, the kick also on the sync output at note 24; a release sends the note-off for what the id recorded, the kick also a sync note-off |
| Triggers.BlackboxSample.constructor | src/devices/blackbox_sample.rs:15-21 | the given channel, nothing sounding or sent |
| Triggers.BlackboxSample.Trigger | src/devices/blackbox_sample.rs:25-45 | a press plays the pad's note at the incoming velocity and records it; a release sends a zero-velocity note-on for what the id recorded and forgets it |
| Triggers.MidiTriggers.constructor | src/devices/midi_triggers.rs:24-33 | the given channel, sidechain and note list, position zero, nothing sounding or sent |
| Triggers.MidiTriggers.OnTick | src/devices/midi_triggers.rs:37-39 | only the position changes |
| Triggers.MidiTriggers.Trigger | src/devices/midi_triggers.rs:41-73 | a press plays the id's entry of the note list and records it, the sidechain id also sending a zero-velocity note-on on the sidechain port; a release sends a zero-velocity note-on for what the id recorded, the sidechain id also a note-off |
| Triggers.DuckParams.constructor | src/loop_grid_launchpad.rs:72 | the duck flag starts lowered |
| Triggers.CcTriggers.constructor | src/devices/cc_triggers.rs:21-37 | the given channel, sidechain id, controller list and velocity curve, position zero, nothing sounding or sent |
| Triggers.CcTriggers.OnTick | src/devices/cc_triggers.rs:41-43 | only the position changes |
| Triggers.CcTriggers.Trigger | src/devices/cc_triggers.rs:45-77 | a press sets the id's controller to the mapped velocity and records it, raising the duck flag for the sidechain id; a release sets the recorded controller to zero and leaves the flag |
| Triggers.TR08.constructor | src/devices/tr08.rs:20-26 | the given channel, nothing sounding or sent |
| Triggers.TR08.Trigger | src/devices/tr08.rs:30-47 | a press plays the id's instrument and records it; a release sends a note-off for what the id recorded |
| Triggers.TR08Distinct | src/devices/tr08.rs:12-17 | the sixteen ids play sixteen different instruments |
| Triggers.VolcaMessages | src/devices/volca_sample.rs:17-43 | a release sends nothing; a press plays the id's part at full velocity, and ids from 8 up first retune the part with controller 43 to a value between 50 and 82 that is 64 exactly for every fourth id |
| Triggers.VolcaSharedParts | src/devices/volca_sample.rs:21-38 | ids from 8 up that share a part retune it to different pitches |
| Triggers.VolcaSample.constructor | src/devices/volca_sample.rs:9-13 | nothing sent |
| Triggers.VolcaSample.Trigger | src/devices/volca_sample.rs:17-43 | exactly the messages VolcaMessages gives are sent |
| Umi3Remote.Decode | src/devices/umi3.rs:12-25 | exactly a three-byte note-on on channel 1 for note 60, 62 or 64 gives an event, pressed exactly when the velocity is positive |
| Umi3Remote.DecodeReachesEveryEvent | src/devices/umi3.rs:14-22 | every remote button, pressed or released, comes from its own pedal note |
| Umi3Remote.DecodeSeparatesPedals | src/devices/umi3.rs:14-22 | two messages giving the same button come from the same pedal |
| Prelude.BinarySearchBy | src/loop_event.rs:41-70 | on a slice partitioned by the comparator, a found index compares equal, and a missing one is the point where every entry before compares less and every entry after greater |
| RustInt.Modulo | src/scale.rs:29-31 | the result has the divisor's sign and lies strictly within it |
| RustInt.ModuloAsWritten | src/scale.rs:29-31 | Modulo equals the helper's formula computed with Rust's truncating remainder |
| RustInt.AsU8 | src/midi_keys.rs:44 | the cast keeps a value in 0 to 255, unchanged when already there |
| RustInt.AsU32 | src/devices/blackbox_slicer.rs:46 | the cast keeps a value below 2^32, unchanged when already there |
| Vt3Devices.Remaining | src/devices/vt3.rs:67 | the retained stack is no longer than the original |
| Vt3Devices.RemainingIds | src/devices/vt3.rs:67 | the retain drops exactly the voices of the released id: the ids left are the old ones minus that id |
| Vt3Devices.IdsSingleton | src/devices/vt3.rs:56 | a single pushed voice names just its own id, and an empty stack none |
| Vt3Devices.IdsAppend | src/devices/vt3.rs:56 | pushing voices adds exactly their ids to those of the stack |
| Vt3Devices.TriggerKeepsConsistent | src/devices/vt3.rs:41-80 | a press or release keeps the trigger stack and the triggering set naming the same ids |
| Vt3Devices.RobotModeFollowsHeldKeys | src/devices/vt3.rs:44-48 | robot mode is switched on first exactly when no key was held, and switched off last exactly when none is held afterwards |
| Vt3Devices.PressKeepsRobotMode | src/devices/vt3.rs:51-58 | a press leaves its id held and its voice (id, note, velocity) on top of the stack |
| Vt3Devices.ReleaseLastKey | src/devices/vt3.rs:59-79 | releasing the only held key sends a note-off for its note and then robot mode off, leaving nothing held |
| Vt3Devices.Handle | src/devices/vt3.rs:51-75 | a press adds the id to the held set, pushes its voice and plays it last; a release drops the id from the held set and every voice of it from the stack; at most two note messages, nothing else |
| Vt3Devices.Step | src/devices/vt3.rs:41-80 | the new state is Handle's; at most four messages; a press ends with its own note-on, so robot mode is not switched off |
| Vt3Devices.RetuneTopKeepsVoices | src/devices/vt3.rs:83-90 | retuning the top voice keeps every id and velocity and every voice below the top, and gives the top the current note |
| Vt3Devices.RetuneTop | src/devices/vt3.rs:83-90 | the stack keeps its length; messages are sent exactly when the stack changes, which is exactly when the top voice holds another note |
| Vt3Devices.VT3.constructor | src/devices/vt3.rs:21-30 | a new VT3 holds no voice, triggers no id and has sent nothing |
| Vt3Devices.VT3.NoteId | src/devices/vt3.rs:33-38 | the note is the six-step scale degree, as written, of id plus base and offset, shifted by pitch and octaves and cast to a byte |
| Vt3Devices.VT3.NoteOf | src/devices/vt3.rs:33-38 | the note is a byte, and with base and scale offset cancelling out it is the played note of the id's own degree |
| Vt3Devices.VT3.Trigger | src/devices/vt3.rs:41-80 | a press with the note NoteId gives, or a release, changes the stack and sends the messages of the trigger step |
| Vt3Devices.VT3.TriggerWith | src/devices/vt3.rs:41-80 | robot mode on when nothing was held, the press or release, robot mode off when nothing is held after, with the new stack and set |
| Vt3Devices.VT3.Press | src/devices/vt3.rs:51-58 | a press stops the top voice at its own velocity, pushes the new voice, plays it and marks the id held |
| Vt3Devices.VT3.Release | src/devices/vt3.rs:59-75 | a release stops the top voice only if it is the released id, drops every voice of that id, and then resumes the new top voice |
| Vt3Devices.VT3.OnTick | src/devices/vt3.rs:82-100 | ids and velocities stay; a changed top note is played and the old one stopped; with two or more voices every stored note becomes the id's current note, silently |
| Vt3Devices.VT3.RetuneTopNow | src/devices/vt3.rs:83-90 | nothing changes on an empty stack; otherwise the top voice is retuned to its id's current note |
| Vt3Devices.VT3.RetuneTopWith | src/devices/vt3.rs:83-90 | a top note that differs is played at the top velocity, the old note is stopped and the stored note replaced |
| Vt3Devices.VT3.UpdateAll | src/devices/vt3.rs:92-99 | every voice keeps its id and velocity and stores the note its id plays now |

## Left out

- The clock and scheduling threads (src/scheduler.rs, src/scheduler4.rs, src/clock_source.rs) are left out. They are threads, channels, `Instant` timing and mutex try-locks. Each device's `OnTick` and each controller's `Schedule` takes the position it would deliver as a parameter.
- src/audio_recorder.rs is left out: it spawns a recorder process, listens on a socket and writes log files, which is all I/O.
- The plumbing files are left out: src/midi_connection.rs, src/main.rs, src/config.rs, src/devices/mod.rs and the rest of src/controllers/mod.rs. Output ports become the ghost message logs.
- `map_velocity` from src/devices/mod.rs is not part of this model. The devices that use it take it as a function-valued constructor parameter.
- The methods of the `LoopGridLaunchpad` struct are left out. They interleave shared parameters, two channels, an atomic flag, direct Launchpad output and about forty hash maps. Its free helpers, `TriggerMode`, and the `LoopGridParams` fields the Twisters read are modelled.
- Floating-point code is left out:
  - src/lfo.rs, src/trigger_envelope.rs, src/controllers/duck_output.rs and src/devices/pitch_offset_chunk.rs;
  - `MidiTime::swing`, `as_float`, `from_float`, `get_half_loop_length` and `get_double_loop_length`;
  - the polar and ease-out conversions of src/controllers/mod.rs and src/devices/twister.rs;
  - the Twister `Send` handling that turns knob values into mixer, LFO and swing parameters.
- Loop lengths and offsets in `LoopStates` are `f64` beats in the source. They are modelled as `real`, which is exact, so rounding is not modelled.
- `MidiTimes.QuantizeLength` and `MidiTimes.RoundDiv` replace the `f64` division and `round` with integer round-half-away-from-zero. The two agree wherever the quotient is exactly representable.
- `LoopGridLaunchpad.AdjustVelocity` and `Sp404.ScaledVelocity` compute their `f64` results exactly on integers. Their comments explain why the float result is that integer.
- `MidiModulator` (src/controllers/mod.rs) and src/controllers/init.rs are left out. They depend on configuration variants and a condition check that are not part of this model.
- Thin forwarding devices are left out: src/devices/volca_bass.rs, src/devices/volca_keys.rs, src/devices/mother_32.rs, src/devices/multi.rs, src/devices/k_board.rs and src/devices/keyboard.rs. Each only forwards to a keyboard, to a list of devices, or from an input thread.
- src/devices/vt4_key.rs is not part of this model: it refers to `self` inside an associated function, so it does not compile. The controller version in src/controllers/vt4_key.rs is modelled. src/devices/k_mix.rs holds no logic.
- Timed sends (`send_at(message, time)`) are modelled as plain appends to the log, and the time is dropped.
- The repository is mid-refactor: some devices take an extra `SystemTime` argument to `trigger` or `on_tick`. The model follows the `Triggerable` trait of src/chunk.rs.
- Instants in the SP-404 MKII offset press are integer milliseconds on a clock the caller supplies.
- The one-millisecond sleeps after switching on VT-3 robot mode are left out.
- Overflow of `i32`, `u32` and `u64` arithmetic is left out, except the explicit `as u8` and `as u32` casts and the byte arithmetic noted in the introduction.
- The Twister controllers' `Schedule` keeps only its bookkeeping:
  - the automation reset;
  - the bank announcement;
  - freeze and cue, with their snapshots and restores;
  - the position.
  Left out of `Schedule`: the `Refresh` and `Send` messages it queues to its own loop, the replay of each looping knob's recorded events, the LFO sends, and the flush of the throttled output.
- The order in which values leave a `HashMap` iteration is not modelled. The model uses a log order that any iteration could produce, as with `ThrottledOutputs.ThrottledOutput.Flush` and the keyboard re-pitch.
- LoopGridLaunchpad.NextPowerOfTwo and LoopGridLaunchpad.PrevPowerOfTwo require an argument below 2^31. Above it the source's `u32` shift wraps to zero and its loop never ends.
- SelectChunks.RootSelect does not model the modulator sends of `refresh_output` (src/devices/root_select.rs:31-36). Each configured modulator is sent the pitch `(id - 8) / 12` as a floating-point polar value, and both the float and the modulator are outside this model. Only the root change is modelled.
- Vt4Devices.VT4 logs its key changes (`sent`) apart from the inner keyboard's notes (`midiKeys.sent`), so the relative order of a key change and a note is not modelled. The source sends the key through `midi_keys.midi_output`, a field that src/devices/midi_keys.rs does not declare (it holds a list of outputs), so the port and the interleaving are not defined by the code.
- TwisterControls.NewTwister and ModTwisters.NewModTwister take each modulator slot's start value as a byte. The source computes it from the configured modulator, converting through `float_to_midi` or `polar_to_midi` for some kinds. Those conversions are floating point and are left out.
- TwisterControls.NewTwister, ModTwisters.NewModTwister and TwisterDevices.NewDeviceTwister do not model the `Send` and `Refresh` messages the source queues for every control at start-up. Those messages drive the knob display and the floating-point parameter sends, which are left out above.
- TwisterDevices.MsbLsb models only the integer split of a 14-bit value into its two 7-bit halves. The float scaling before it is left out.

## Findings

| source | as written | input that shows it | evidently intended | confidence | as-written member | corrected member |
|---|---|---|---|---|---|---|
| src/midi_time.rs:62-77 | `half` of a time with odd negative ticks divides with truncation toward zero, so the carried half tick rounds the wrong way | `MidiTime { ticks: -1, sub_ticks: 0 }` halves to `{ ticks: 0, sub_ticks: 2 }`, plus half a tick instead of minus half a tick | half of the time, rounded down to a sub-tick, for every sign; this already holds for non-negative times | not executed | MidiTimes.HalfOfNegativeOddTicks | MidiTimes.HalfFloor |
| src/scale.rs:15 | `get_note_at` walks a six-step interval table `[2, 2, 1, 2, 2, 1]` rotated modulo six. Modes 0 and 3 play the same notes, mode 6 repeats mode 0, and mode 0 ends on a minor seventh. The scale choosers pick seven modes (modulo 7), and the VT-4 key follows the seven-step major table. | root 60, mode 0, value 6 plays 70 (B flat) while the VT-4 is set to C major | the seven-step major table `[2, 2, 1, 2, 2, 2, 1]`, whose seven modes are the church modes and whose every note lies in the key sent to the VT-4 | not executed | Scales.AsWrittenModesCoincide | Vt4Keys.NoteAtInVt4Key |
