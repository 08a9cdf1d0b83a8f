/** The clock pulse controller: a short note on C1 (note 36) every
    `divider` ticks, for analogue gear that follows a trigger clock. */
module ClockPulses {
  import opened RustInt
  import opened MidiTimes

  /** Whether `schedule` pulses at tick `ticks`: Rust's `%` of `ticks - 1`
      by the divider is zero. */
  predicate PulsesAt(ticks: int, divider: int)
    requires divider != 0
    ensures divider == 1 ==> PulsesAt(ticks, divider)
    ensures divider > 0 && 1 <= ticks <= divider ==> (PulsesAt(ticks, divider) <==> ticks == 1)
  {
    TruncRem(ticks - 1, divider) == 0
  }

  /** For a positive divider the pulses fall on the ticks one past a
      multiple of the divider, whatever the sign of the tick. */
  lemma PulsesAtOnePastMultiple(ticks: int, divider: int)
    requires divider > 0
    ensures PulsesAt(ticks, divider) <==> (ticks - 1) % divider == 0
  {
    TruncRemZero(ticks - 1, divider);
  }

  /** The pulse train repeats every `divider` ticks. */
  lemma PulsesArePeriodic(ticks: int, divider: int)
    requires divider > 0
    ensures PulsesAt(ticks + divider, divider) <==> PulsesAt(ticks, divider)
  {
    PulsesAtOnePastMultiple(ticks, divider);
    PulsesAtOnePastMultiple(ticks + divider, divider);
    EuclideanShift(ticks - 1, divider, 1);
  }

  /** The note-on and note-off that make one pulse. */
  function PulseMessages(channel: int): seq<seq<int>>
  {
    [[143 + channel, 36, 127], [143 + channel, 36, 0]]
  }

  class ClockPulse {
    var channel: int
    var divider: int
    /** Every message sent to the output, in order. */
    ghost var sent: seq<seq<int>>

    constructor (channel: int, divider: int)
      ensures this.channel == channel && this.divider == divider && sent == []
    {
      this.channel := channel;
      this.divider := divider;
      sent := [];
    }

    /** `schedule`: sends a pulse when the tick is one past a multiple of
        the divider. The source divides by the divider, so it must not be
        zero. */
    method Schedule(pos: MidiTime, length: MidiTime)
      requires divider != 0
      modifies this
      ensures channel == old(channel) && divider == old(divider)
      ensures PulsesAt(pos.ticks, divider) ==> sent == old(sent) + PulseMessages(channel)
      ensures !PulsesAt(pos.ticks, divider) ==> sent == old(sent)
    {
      if TruncRem(pos.ticks - 1, divider) == 0 {
        sent := sent + [[143 + channel, 36, 127]];
        sent := sent + [[143 + channel, 36, 0]];
      }
    }
  }
}
