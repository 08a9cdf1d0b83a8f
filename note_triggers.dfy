/** What the one-shot trigger devices share: each sounding grid id keeps the
    channel, note and velocity it was played with, so that its release
    silences exactly what its press started. */
module NoteTriggers {

  /** A sounding trigger: channel (counted from 1), note and velocity. */
  type Sounding = (int, int, int)

  /** A press recording `entry` for `id`: the message whose status byte
      is `base` plus the channel, with its note and velocity. */
  function Press(values: map<nat, Sounding>, id: nat, entry: Sounding, base: int): (map<nat, Sounding>, seq<seq<int>>)
  {
    (values[id := entry], [[base + entry.0, entry.1, entry.2]])
  }

  /** A release of `id`: when it sounds, the message whose status byte is
      `base` plus the recorded channel, for the recorded note at value
      zero, and the id is forgotten; an id that does not sound changes
      nothing and sends nothing. */
  function Release(values: map<nat, Sounding>, id: nat, base: int): (map<nat, Sounding>, seq<seq<int>>)
  {
    if id in values then
      (values - {id}, [[base + values[id].0, values[id].1, 0]])
    else (values, [])
  }

  /** A release forgets the id, and sends a message exactly when the id
      was sounding. */
  lemma ReleaseForgets(values: map<nat, Sounding>, id: nat, base: int)
    ensures Release(values, id, base).0 == values - {id}
    ensures id !in Release(values, id, base).0
    ensures |Release(values, id, base).1| == (if id in values then 1 else 0)
  {
    if id !in values {
      assert values - {id} == values;
    }
  }

  /** Releasing an id just pressed silences the note the press played, on
      the channel it played it, and leaves the other ids as they were. */
  lemma PressThenRelease(values: map<nat, Sounding>, id: nat, entry: Sounding, onBase: int, offBase: int)
    requires id !in values
    ensures Release(Press(values, id, entry, onBase).0, id, offBase) == (values, [[offBase + entry.0, entry.1, 0]])
  {
    assert values[id := entry] - {id} == values;
  }
}
