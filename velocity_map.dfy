/** The velocity map chunk: the grid buttons held on it mark the steps the
    drum devices accent. */
module VelocityMaps {
  import opened RustInt
  import opened Chunk
  import opened OutputValues

  /** The shared map of accented steps to a velocity. */
  class Velocities {
    var values: map<nat, U8>

    constructor ()
      ensures values == map[]
    {
      values := map[];
    }
  }

  /** `VelocityMap`: writes the shared map. */
  class VelocityMap {
    const velocities: Velocities

    constructor (velocities: Velocities)
      ensures this.velocities == velocities
    {
      this.velocities := velocities;
    }

    function Latching(): LatchMode { NoSuppress }

    /** `trigger`: a press stores full velocity for the id, whatever the
        incoming velocity; a release removes it. */
    method Trigger(id: nat, value: OutputValue)
      modifies velocities
      ensures value.On? ==> velocities.values == old(velocities.values)[id := 127]
      ensures value.Off? ==> velocities.values == old(velocities.values) - {id}
    {
      match value {
        case Off =>
          velocities.values := velocities.values - {id};
        case On(_) =>
          velocities.values := velocities.values[id := 127];
      }
    }

    /** `get_active`: the ids held, collected key by key. */
    method GetActive() returns (result: set<nat>)
      ensures result == velocities.values.Keys
    {
      result := {};
      var remaining := velocities.values.Keys;
      while remaining != {}
        invariant result + remaining == velocities.values.Keys
        invariant result !! remaining
        decreases remaining
      {
        var key :| key in remaining;
        result := result + {key};
        remaining := remaining - {key};
      }
    }
  }
}
