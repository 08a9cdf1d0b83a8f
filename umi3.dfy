/** The UMI3 foot controller: its three pedals forward the loop, double
    and sustain buttons to the Launchpad loop grid. */
module Umi3Remote {
  import opened Prelude
  import opened LoopGridLaunchpad

  /** The remote event for a message from the pedals: a note-on on channel
      1 for note 60, 62 or 64, pressed while its velocity is above zero. */
  function Decode(message: seq<int>): (event: Option<LoopGridRemoteEvent>)
    ensures event.Some? <==> |message| == 3 && message[0] == 144 && message[1] in {60, 62, 64}
    ensures event.Some? ==> event.value.pressed == (message[2] > 0)
  {
    if |message| == 3 && message[0] == 144 then
      if message[1] == 60 then Some(LoopButton(message[2] > 0))
      else if message[1] == 62 then Some(DoubleButton(message[2] > 0))
      else if message[1] == 64 then Some(SustainButton(message[2] > 0))
      else None
    else None
  }

  /** The pedal note for each remote button. */
  function PedalNote(event: LoopGridRemoteEvent): int
  {
    match event
    case LoopButton(_) => 60
    case DoubleButton(_) => 62
    case SustainButton(_) => 64
  }

  /** Each button is reached from its own pedal, pressed or released. */
  lemma DecodeReachesEveryEvent(event: LoopGridRemoteEvent, velocity: int)
    requires event.pressed <==> velocity > 0
    ensures Decode([144, PedalNote(event), velocity]) == Some(event)
  {
  }

  /** Different pedals never give the same button. */
  lemma DecodeSeparatesPedals(m1: seq<int>, m2: seq<int>)
    requires Decode(m1).Some? && Decode(m2).Some?
    requires Decode(m1) == Decode(m2)
    ensures m1[1] == m2[1]
  {
  }
}
