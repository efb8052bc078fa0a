/** Values shared by the rule engine, the server controller and the client:
    grid cells and the orientation of a two-cell wall (the WallPlacement enum). */
module Protocol {
  import opened JavaText

  /** A cell of the 9x9 grid (a Position's coordinates), 0-based. */
  datatype Cell = Cell(x: int, y: int)

  /** WallPlacement: the orientation of a wall addressed by its top-left cell. */
  datatype WallPlacement = Vertical | Horizontal

  /** The enum constant's name, which is also how it is written on the wire. */
  function Name(o: WallPlacement): (s: string)
    ensures IsWord(s)
  {
    match o
    case Vertical => "VERTICAL"
    case Horizontal => "HORIZONTAL"
  }

  /** `WallPlacement.valueOf(s)`: only an exact constant name is accepted; any other
      string is an IllegalArgumentException (None). */
  function ValueOf(s: string): (r: Option<WallPlacement>)
    ensures r.Some? <==> s == Name(Vertical) || s == Name(Horizontal)
    ensures r.Some? ==> Name(r.value) == s
  {
    if s == "VERTICAL" then Some(Vertical)
    else if s == "HORIZONTAL" then Some(Horizontal)
    else None
  }
}
