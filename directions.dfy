/**
 * The nine relative directions shared by `lines.Direction` and
 * `boardFeatures.Direction`: both enums declare the same constants in the same
 * order, each with a file delta and a rank delta.
 */
module Directions {
  import opened Wrappers
  import opened Squares

  datatype Direction = DownLeft | Left | UpLeft | Down | NoDirection | Up | DownRight | Right | UpRight
  {
    function Ordinal(): (r: int)
      ensures 0 <= r < 9
    {
      match this
      case DownLeft => 0
      case Left => 1
      case UpLeft => 2
      case Down => 3
      case NoDirection => 4
      case Up => 5
      case DownRight => 6
      case Right => 7
      case UpRight => 8
    }

    function FileDelta(): int {
      match this
      case DownLeft => -1
      case Left => -1
      case UpLeft => -1
      case Down => 0
      case NoDirection => 0
      case Up => 0
      case DownRight => 1
      case Right => 1
      case UpRight => 1
    }

    function RankDelta(): int {
      match this
      case DownLeft => -1
      case Left => 0
      case UpLeft => 1
      case Down => -1
      case NoDirection => 0
      case Up => 1
      case DownRight => -1
      case Right => 0
      case UpRight => 1
    }
  }

  /** `values()`, in declaration order. */
  const Values: seq<Direction> := [DownLeft, Left, UpLeft, Down, NoDirection, Up, DownRight, Right, UpRight]

  lemma ValuesByOrdinal(d: Direction)
    ensures Values[d.Ordinal()] == d
  {
  }

  /** `Square.getNeighbor`: one step in direction `d`, or None off the board. */
  function Neighbor(s: Square, d: Direction): (r: Option<Square>)
    ensures r.Some? ==> r.value.file == s.file + d.FileDelta() && r.value.rank == s.rank + d.RankDelta()
    ensures r.None? <==> !OnBoard(s.file + d.FileDelta(), s.rank + d.RankDelta())
  {
    ByOffset(s, d.FileDelta(), d.RankDelta())
  }
}
