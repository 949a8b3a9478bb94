/** `lines.Direction`: operations on the nine relative directions. */
module LineDirection {
  import opened Squares
  import opened Directions
  import opened LineTypes
  import opened Wrappers
  import opened Movements
  import Seqs

  const CenterIndex := 4
  const LastIndex := 8

  /**
   * `getByDeltas`: NONE when either delta has magnitude above 1, otherwise the
   * direction with exactly those deltas.
   */
  function ByDeltas(fileDelta: int, rankDelta: int): (d: Direction)
    ensures Abs(fileDelta) > 1 || Abs(rankDelta) > 1 ==> d == NoDirection
    ensures Abs(fileDelta) <= 1 && Abs(rankDelta) <= 1 ==>
      d.FileDelta() == fileDelta && d.RankDelta() == rankDelta
  {
    if Abs(fileDelta) > 1 || Abs(rankDelta) > 1 then NoDirection
    else Values[(fileDelta + 1) * 3 + rankDelta + 1]
  }

  /** `getOppositeDirection`: the value at index 8 - ordinal, which negates both deltas. */
  function Opposite(d: Direction): (o: Direction)
    ensures o.FileDelta() == -d.FileDelta() && o.RankDelta() == -d.RankDelta()
  {
    Values[LastIndex - d.Ordinal()]
  }

  lemma OppositeIsInvolution(d: Direction)
    ensures Opposite(Opposite(d)) == d
    ensures Opposite(d) == d <==> d == NoDirection
  {
  }

  /** `getSuccessiveManhattanDistanceDelta`: 1 along a file or rank, 2 along a diagonal, 0 for NONE. */
  function ManhattanStep(d: Direction): (n: int)
    ensures n == 0 <==> d == NoDirection
    ensures n == 1 <==> LineTypeOf(d) == Some(FileLine) || LineTypeOf(d) == Some(RankLine)
    ensures n == 2 <==> LineTypeOf(d) == Some(DownRightDiagonalLine) || LineTypeOf(d) == Some(UpRightDiagonalLine)
  {
    Abs(d.FileDelta()) + Abs(d.RankDelta())
  }

  /**
   * `getLineType`, chosen by the distance of the ordinal from NONE's: a file for
   * vertical steps, a rank for horizontal ones, and the diagonal a step runs along.
   */
  function LineTypeOf(d: Direction): (t: Option<LineType>)
    ensures t == None <==> d == NoDirection
    ensures t == Some(FileLine) <==> d.FileDelta() == 0 && d.RankDelta() != 0
    ensures t == Some(RankLine) <==> d.RankDelta() == 0 && d.FileDelta() != 0
    ensures t == Some(UpRightDiagonalLine) <==> d.FileDelta() != 0 && d.FileDelta() == d.RankDelta()
    ensures t == Some(DownRightDiagonalLine) <==> d.FileDelta() != 0 && d.FileDelta() == -d.RankDelta()
  {
    match Abs(CenterIndex - d.Ordinal())
    case 1 => Some(FileLine)
    case 2 => Some(DownRightDiagonalLine)
    case 3 => Some(RankLine)
    case 4 => Some(UpRightDiagonalLine)
    case _ => None
  }

  lemma OppositeSharesLineType(d: Direction)
    ensures LineTypeOf(Opposite(d)) == LineTypeOf(d)
  {
  }

  function Sign(x: int): int {
    if x > 0 then 1 else if x < 0 then -1 else 0
  }

  /**
   * `determineMovement`: a direction after NONE moves forwards along its line
   * (towards a higher file, or up a file), one before it backwards.
   */
  function MovementOf(d: Direction): (m: Movement)
    ensures m == Nowhere <==> d == NoDirection
    ensures m == Forwards <==> d.FileDelta() > 0 || (d.FileDelta() == 0 && d.RankDelta() > 0)
    ensures m == Forwards <==> d.Ordinal() > CenterIndex
  {
    match Sign(CenterIndex - d.Ordinal())
    case -1 => Forwards
    case 1 => Backwards
    case _ => Nowhere
  }

  lemma OppositeReversesMovement(d: Direction)
    requires d != NoDirection
    ensures MovementOf(Opposite(d)) != MovementOf(d)
  {
  }

  lemma OutwardListing()
    ensures forall d :: d in [DownLeft, Left, UpLeft, Down, Up, DownRight, Right, UpRight] <==> d != NoDirection
  {
    var r := [DownLeft, Left, UpLeft, Down, Up, DownRight, Right, UpRight];
    forall d: Direction ensures d in r <==> d != NoDirection {
      match d
      case DownLeft => assert r[0] == d;
      case Left => assert r[1] == d;
      case UpLeft => assert r[2] == d;
      case Down => assert r[3] == d;
      case NoDirection =>
      case Up => assert r[4] == d;
      case DownRight => assert r[5] == d;
      case Right => assert r[6] == d;
      case UpRight => assert r[7] == d;
    }
  }

  /** `calculateOutwardDirections`: `values()` without NONE, in declaration order. */
  function OutwardDirections(): (r: seq<Direction>)
    ensures |r| == 8 && Seqs.Distinct(r)
    ensures forall d :: d in r <==> d != NoDirection
  {
    var r := seq(8, (i: int) requires 0 <= i < 8 => if i < CenterIndex then Values[i] else Values[i + 1]);
    assert r == [DownLeft, Left, UpLeft, Down, Up, DownRight, Right, UpRight];
    OutwardListing();
    r
  }
}
