/** The value a loop event carries: a note or control on with a velocity, or
    off. */
module OutputValues {
  import opened RustInt
  import opened Prelude

  /** Declared `On` before `Off`, so the derived order puts every `On`
      before `Off` and orders `On`s by velocity. */
  datatype OutputValue = On(velocity: U8) | Off

  function IsOn(v: OutputValue): bool
  {
    v.On?
  }

  /** The velocity of an `On`, zero for `Off`. */
  function Value(v: OutputValue): (r: U8)
    ensures r == 0 <== !IsOn(v)
    ensures IsOn(v) ==> r == v.velocity
  {
    match v
    case Off => 0
    case On(velocity) => velocity
  }

  function IntCmp(a: int, b: int): (o: Ordering)
    ensures o == Less <==> a < b
    ensures o == Equal <==> a == b
  {
    if a < b then Less else if a == b then Equal else Greater
  }

  /** The derived `Ord` of the enum. */
  function ValueCmp(a: OutputValue, b: OutputValue): (o: Ordering)
    ensures o == Equal <==> a == b
    ensures o == Less <==> (a.On? && b.Off?) || (a.On? && b.On? && a.velocity < b.velocity)
  {
    match (a, b)
    case (On(x), On(y)) => IntCmp(x, y)
    case (On(_), Off) => Less
    case (Off, On(_)) => Greater
    case (Off, Off) => Equal
  }
}
