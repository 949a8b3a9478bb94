/**
 * `boardFeatures.Direction`: the older variant of the direction operations. It
 * returns null instead of NONE for large deltas, indexes its opposite from
 * NONE's ordinal instead of the last one, and names forwards and backwards the
 * other way round.
 */
module FeatureDirection {
  import opened Squares
  import opened Directions
  import opened Wrappers
  import opened LineTypes
  import opened Movements
  import LineDirection

  const CenterIndex := 4

  /** `getByDeltas`: null when either delta has magnitude above 1, otherwise the same value as the lines version. */
  function ByDeltas(fileDelta: int, rankDelta: int): (d: Option<Direction>)
    ensures d.None? <==> Abs(fileDelta) > 1 || Abs(rankDelta) > 1
    ensures d.Some? ==> d.value.FileDelta() == fileDelta && d.value.RankDelta() == rankDelta
    ensures d.Some? ==> d.value == LineDirection.ByDeltas(fileDelta, rankDelta)
  {
    if Abs(fileDelta) > 1 || Abs(rankDelta) > 1 then None
    else Some(Values[(fileDelta + 1) * 3 + rankDelta + 1])
  }

  /**
   * `getOppositeDirection` as written: `values()[4 - ordinal]`, which throws an
   * index error for every direction after NONE.
   */
  function OppositeAsWritten(d: Direction): (o: Option<Direction>)
    ensures o.None? <==> d.Ordinal() > CenterIndex
    ensures o.Some? ==> o.value.Ordinal() == CenterIndex - d.Ordinal()
  {
    var index := CenterIndex - d.Ordinal();
    if 0 <= index < |Values| then Some(Values[index]) else None
  }

  /**
   * No direction gets its true opposite: NONE gets DOWN_LEFT, DOWN_LEFT gets
   * NONE, DOWN gets LEFT, and UP throws.
   */
  lemma OppositeAsWrittenIsWrong(d: Direction)
    ensures OppositeAsWritten(d) != Some(LineDirection.Opposite(d))
    ensures OppositeAsWritten(NoDirection) == Some(DownLeft)
    ensures OppositeAsWritten(DownLeft) == Some(NoDirection)
    ensures OppositeAsWritten(Down) == Some(Left)
    ensures OppositeAsWritten(Up).None?
  {
    match d
    case DownLeft => assert Values[4] == NoDirection;
    case Left => assert Values[3] == Down;
    case UpLeft => assert Values[2] == UpLeft;
    case Down => assert Values[1] == Left;
    case NoDirection => assert Values[0] == DownLeft;
    case _ =>
  }

  /**
   * `getOppositeDirection` as evidently intended: reflected through NONE's
   * ordinal, the value at index 2 * 4 - ordinal, which negates both deltas.
   */
  function Opposite(d: Direction): (o: Direction)
    ensures o.FileDelta() == -d.FileDelta() && o.RankDelta() == -d.RankDelta()
    ensures o.Ordinal() + d.Ordinal() == 2 * CenterIndex
  {
    Values[2 * CenterIndex - d.Ordinal()]
  }

  /** The intended opposite is an involution that fixes only NONE, and it is the lines version's opposite. */
  lemma OppositeIsInvolution(d: Direction)
    ensures Opposite(Opposite(d)) == d
    ensures Opposite(d) == d <==> d == NoDirection
    ensures Opposite(d) == LineDirection.Opposite(d)
  {
    ValuesByOrdinal(d);
  }

  /** `getLineType`: the same classes of line as the lines version. */
  function LineClass(d: Direction): (t: Option<LineType>)
    ensures t == LineDirection.LineTypeOf(d)
  {
    match Abs(CenterIndex - d.Ordinal())
    case 1 => Some(FileLine)
    case 2 => Some(DownRightDiagonalLine)
    case 3 => Some(RankLine)
    case 4 => Some(UpRightDiagonalLine)
    case _ => None
  }

  function Reversed(m: Movement): Movement {
    match m
    case Forwards => Backwards
    case Backwards => Forwards
    case Nowhere => Nowhere
  }

  /** `determineMovement`: forwards before NONE and backwards after it, the reverse of the lines version. */
  function MovementOf(d: Direction): (m: Movement)
    ensures m == Reversed(LineDirection.MovementOf(d))
    ensures m == Forwards <==> d.Ordinal() < CenterIndex
    ensures m == Backwards <==> d.Ordinal() > CenterIndex
  {
    match LineDirection.Sign(CenterIndex - d.Ordinal())
    case 1 => Forwards
    case -1 => Backwards
    case _ => Nowhere
  }

  /** `calculateOutwardDirections`: `values()` without NONE. */
  function OutwardDirections(): (r: seq<Direction>)
    ensures r == LineDirection.OutwardDirections()
  {
    seq(8, (i: int) requires 0 <= i < 8 => if i < CenterIndex then Values[i] else Values[i + 1])
  }
}
