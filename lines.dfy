/**
 * The four kinds of line (`lines.LineType`) and, for each kind, the line through
 * a square with its squares in forward order. `Line.java` and `LineType.java` are
 * not part of this model: the squares in front of a square are taken to be the
 * later squares of its line, nearest first, and the squares behind it the earlier
 * ones, nearest first.
 */
module LineTypes {
  datatype LineType = FileLine | DownRightDiagonalLine | RankLine | UpRightDiagonalLine
}

module Lines {
  import opened Squares
  import opened LineTypes
  import FileLines
  import RankLines
  import DownRightDiagonals
  import UpRightDiagonals
  import Seqs

  /** `getLineBySquare(s).getContainedSquares()`: the squares of the line of kind `t` through `s`. */
  function SquaresThrough(t: LineType, s: Square): seq<Square> {
    match t
    case FileLine => FileLines.ContainedSquares(s.file)
    case RankLine => RankLines.ContainedSquares(s.rank)
    case DownRightDiagonalLine => DownRightDiagonals.ContainedSquares(DownRightDiagonals.BySquare(s))
    case UpRightDiagonalLine => UpRightDiagonals.ContainedSquares(UpRightDiagonals.BySquare(s))
  }

  /** The position of `s` in the line of kind `t` through it. */
  function IndexIn(t: LineType, s: Square): (i: int)
    ensures 0 <= i < |SquaresThrough(t, s)| && SquaresThrough(t, s)[i] == s
  {
    match t
    case FileLine => s.rank
    case RankLine => s.file
    case DownRightDiagonalLine =>
      var d := DownRightDiagonals.BySquare(s);
      DownRightDiagonals.ContainedSquaresExactly(d, s);
      s.file - DownRightDiagonals.ContainedSquares(d)[0].file
    case UpRightDiagonalLine =>
      var d := UpRightDiagonals.BySquare(s);
      UpRightDiagonals.ContainedSquaresExactly(d, s);
      s.file - UpRightDiagonals.ContainedSquares(d)[0].file
  }

  function SquaresInFront(t: LineType, s: Square): seq<Square> {
    SquaresThrough(t, s)[IndexIn(t, s) + 1..]
  }

  function SquaresBehind(t: LineType, s: Square): seq<Square> {
    Seqs.Reverse(SquaresThrough(t, s)[..IndexIn(t, s)])
  }
}
