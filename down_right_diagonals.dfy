/**
 * `lines.DownRightDiagonal`: the fifteen diagonals running from upper left to
 * lower right, indexed by file + rank, from 0 (a1) to 14 (h8).
 */
module DownRightDiagonals {
  import opened Squares
  import Seqs

  type DiagonalIndex = i: int | 0 <= i < 15

  const CenterIndex := 7
  const MaxLength := 8

  /** `getBySquare`: the diagonal through a square. */
  function BySquare(s: Square): (d: DiagonalIndex)
    ensures d == s.file + s.rank
  {
    s.file + s.rank
  }

  predicate ContainsSquare(d: DiagonalIndex, s: Square) {
    BySquare(s) == d
  }

  function ManhattanDistanceToSquare(d: DiagonalIndex, s: Square): nat {
    Abs(BySquare(s) - d)
  }

  /**
   * The distance is that of the nearest square of the diagonal: no square of the
   * diagonal is nearer, and one of them is exactly that near.
   */
  lemma DistanceIsNearest(d: DiagonalIndex, s: Square)
    ensures forall t: Square :: ContainsSquare(d, t) ==>
      ManhattanDistanceToSquare(d, s) <= Abs(t.file - s.file) + Abs(t.rank - s.rank)
    ensures exists t: Square ::
      ContainsSquare(d, t) && ManhattanDistanceToSquare(d, s) == Abs(t.file - s.file) + Abs(t.rank - s.rank)
  {
    var gap := d - (s.file + s.rank);
    if gap >= 0 {
      var a := if gap <= 7 - s.file then gap else 7 - s.file;
      var t := Square(s.file + a, s.rank + (gap - a));
      assert ContainsSquare(d, t);
    } else {
      var a := if -gap <= s.file then -gap else s.file;
      var t := Square(s.file - a, s.rank - (-gap - a));
      assert ContainsSquare(d, t);
    }
  }

  /** The number of squares on diagonal `d`. */
  function Length(d: DiagonalIndex): (n: int)
    ensures 1 <= n <= MaxLength
  {
    MaxLength - Abs(d - CenterIndex)
  }

  /** The file and rank formulas of `getListOfContainedSquares`, with Java's truncating division. */
  function SquareAt(d: DiagonalIndex, offset: int): Square
    requires 0 <= offset < Length(d)
  {
    Square(offset + (d / MaxLength) * (d - CenterIndex),
           CenterIndex - (d / MaxLength - 1) * -1 * (CenterIndex - d) - offset)
  }

  /**
   * The squares of diagonal `d`: every one lies on `d`, and along the list the
   * file rises and the rank falls by one per square.
   */
  function ContainedSquares(d: DiagonalIndex): (r: seq<Square>)
    ensures |r| == Length(d)
    ensures forall i :: 0 <= i < |r| ==> BySquare(r[i]) == d
    ensures forall i :: 0 <= i < |r| ==> r[i].file == r[0].file + i && r[i].rank == r[0].rank - i
  {
    seq(Length(d), (i: int) requires 0 <= i < Length(d) => SquareAt(d, i))
  }

  /** Every square of the diagonal is listed. */
  lemma ContainedSquaresExactly(d: DiagonalIndex, s: Square)
    ensures s in ContainedSquares(d) <==> ContainsSquare(d, s)
  {
    var r := ContainedSquares(d);
    if ContainsSquare(d, s) {
      var i := s.file - r[0].file;
      assert 0 <= i < |r| && r[i] == s;
    }
  }

  /**
   * The per-diagonal lists that `setContainedSquares` assigns to every
   * `DownRightDiagonal` constant: the contained squares and their reverse.
   */
  class DiagonalSquareTable {
    var contained: seq<seq<Square>>
    var reversed: seq<seq<Square>>

    constructor ()
      ensures contained == [] && reversed == []
    {
      contained := [];
      reversed := [];
    }

    method SetContainedSquares()
      modifies this
      ensures |contained| == 15 && |reversed| == 15
      ensures forall d: DiagonalIndex :: contained[d] == ContainedSquares(d)
      ensures forall d: DiagonalIndex :: reversed[d] == Seqs.Reverse(ContainedSquares(d))
    {
      contained := [];
      reversed := [];
      for d := 0 to 15
        invariant |contained| == d && |reversed| == d
        invariant forall g :: 0 <= g < d ==> contained[g] == ContainedSquares(g)
        invariant forall g :: 0 <= g < d ==> reversed[g] == Seqs.Reverse(ContainedSquares(g))
      {
        var squares := ContainedSquares(d);
        contained := contained + [squares];
        reversed := reversed + [Seqs.Reverse(squares)];
      }
    }
  }
}
