/** Grid chunks: the defaults every `Triggerable` device falls back on, grid
    coordinates, and the latch and schedule modes a device can ask for. */
module Chunk {
  import opened Prelude

  /** How the grid latches a device's buttons. */
  datatype LatchMode = NoLatch | LatchSingle | LatchSuppress | NoSuppress

  /** How the looper schedules a device's events. */
  datatype ScheduleMode = MostRecent | Monophonic | Percussion

  datatype RepeatMode = Global | OnlyQuant | NoCycle | NoRepeat

  /** A button position on the eight-column grid. */
  datatype Coords = Coords(row: nat, col: nat)

  /** The `Triggerable` defaults: no active set reported, no latching, the
      most recent event wins. */
  function DefaultActive(): Option<set<nat>> { None }

  function DefaultLatchMode(): LatchMode { NoLatch }

  function DefaultScheduleMode(): ScheduleMode { MostRecent }

  function NewCoords(row: nat, col: nat): Coords
  {
    Coords(row, col)
  }

  /** `Coords::from`: the row and column of an id, eight ids per row. */
  function CoordsFrom(id: nat): (c: Coords)
    ensures c.col < 8 && IdFrom(c.row, c.col) == id
  {
    Coords(id / 8, id % 8)
  }

  /** `Coords::id_from`: row-major id of a grid position. */
  function IdFrom(row: nat, col: nat): nat
  {
    row * 8 + col
  }

  /** Inside the eight columns, ids and coordinates convert both ways. */
  lemma CoordsRoundTrip(row: nat, col: nat)
    requires col < 8
    ensures CoordsFrom(IdFrom(row, col)) == Coords(row, col)
  {
    var id := IdFrom(row, col);
    assert id == 8 * row + col;
    assert id / 8 == row && id % 8 == col;
  }
}
