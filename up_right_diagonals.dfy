/**
 * `boardFeatures.UpRightDiagonal`: the fifteen diagonals running from lower left
 * to upper right, indexed by 7 + file - rank, from 0 (a8) to 14 (h1).
 */
module UpRightDiagonals {
  import opened Wrappers
  import opened Squares
  import opened Directions
  import Seqs

  type DiagonalIndex = i: int | 0 <= i < 15

  const CenterIndex := 7
  const MaxLength := 8
  const ForwardDirection: Direction := UpRight

  /** `getBySquare`: the diagonal through a square. */
  function BySquare(s: Square): (d: DiagonalIndex)
    ensures d == CenterIndex + s.file - s.rank
  {
    CenterIndex + s.file - s.rank
  }

  predicate ContainsSquare(d: DiagonalIndex, s: Square) {
    BySquare(s) == d
  }

  function Length(d: DiagonalIndex): (n: int)
    ensures 1 <= n <= MaxLength
  {
    MaxLength - Abs(d - CenterIndex)
  }

  function SquareAt(d: DiagonalIndex, offset: int): Square
    requires 0 <= offset < Length(d)
  {
    Square(offset + (d / MaxLength) * (d - CenterIndex),
           ((d / MaxLength) - 1) * -1 * (CenterIndex - d) + offset)
  }

  /**
   * The squares of diagonal `d`: every one lies on `d`, and along the list both
   * the file and the rank rise by one per square.
   */
  function ContainedSquares(d: DiagonalIndex): (r: seq<Square>)
    ensures |r| == Length(d)
    ensures forall i :: 0 <= i < |r| ==> BySquare(r[i]) == d
    ensures forall i :: 0 <= i < |r| ==> r[i].file == r[0].file + i && r[i].rank == r[0].rank + i
  {
    seq(Length(d), (i: int) requires 0 <= i < Length(d) => SquareAt(d, i))
  }

  function ReverseContainedSquares(d: DiagonalIndex): (r: seq<Square>)
    ensures |r| == Length(d)
    ensures forall i :: 0 <= i < |r| ==> r[i] == ContainedSquares(d)[Length(d) - 1 - i]
  {
    Seqs.Reverse(ContainedSquares(d))
  }

  lemma ContainedSquaresExactly(d: DiagonalIndex, s: Square)
    ensures s in ContainedSquares(d) <==> ContainsSquare(d, s)
  {
    var r := ContainedSquares(d);
    if ContainsSquare(d, s) {
      var i := s.file - r[0].file;
      assert 0 <= i < |r| && r[i] == s;
    }
  }

  /** `getSpotInLine`: the rank index. */
  function SpotInLine(s: Square): (spot: int)
    ensures 0 <= spot < 8
  {
    s.rank
  }

  /** The spot in line rises by one from each square of a diagonal to the next. */
  lemma SpotRisesAlongList(d: DiagonalIndex, i: int)
    requires 0 <= i < Length(d) - 1
    ensures SpotInLine(ContainedSquares(d)[i + 1]) == SpotInLine(ContainedSquares(d)[i]) + 1
  {
  }

  /** Stepping in the forward direction moves one place along the contained list. */
  lemma {:induction false} ForwardStepsAlongList(d: DiagonalIndex, i: int)
    requires 0 <= i < Length(d) - 1
    ensures Neighbor(ContainedSquares(d)[i], ForwardDirection) == Some(ContainedSquares(d)[i + 1])
  {
  }
}
