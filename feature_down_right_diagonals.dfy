/**
 * `boardFeatures.DownRightDiagonal`: the older variant of the down-right
 * diagonals, indexed by file + rank like `lines.DownRightDiagonal`, whose list
 * formula is only right for the diagonals up to the long one.
 */
module FeatureDownRightDiagonals {
  import opened Wrappers
  import opened Squares
  import Lines = DownRightDiagonals

  type DiagonalIndex = Lines.DiagonalIndex

  function BySquare(s: Square): (d: DiagonalIndex)
    ensures d == Lines.BySquare(s)
  {
    s.file + s.rank
  }

  predicate ContainsSquare(d: DiagonalIndex, s: Square) {
    BySquare(s) == d
  }

  /** `getSpotInLine`: the rank index, which falls by one along the diagonal. */
  function SpotInLine(s: Square): (spot: int)
    ensures 0 <= spot < 8
    ensures forall t: Square :: ContainsSquare(BySquare(s), t) && t.file == s.file + 1 ==> t.rank == spot - 1
  {
    s.rank
  }

  function FileAsWritten(d: DiagonalIndex, offset: int): int {
    offset + (d / 8) * (d - 7)
  }

  /** The rank formula as written: `((d / 8) - 1) * -1 * d - offset`. */
  function RankAsWritten(d: DiagonalIndex, offset: int): int {
    ((d / 8) - 1) * -1 * d - offset
  }

  /**
   * The stream map of `getListOfContainedSquares` from `offset` on: each offset
   * becomes a square, and the first coordinate off the board throws.
   */
  function ListFrom(d: DiagonalIndex, offset: nat): (r: Result<seq<Square>>)
    ensures r.Success? ==> |r.value| == if offset >= Lines.Length(d) then 0 else Lines.Length(d) - offset
    decreases Lines.Length(d) - offset
  {
    if offset >= Lines.Length(d) then Success([])
    else if !OnBoard(FileAsWritten(d, offset), RankAsWritten(d, offset)) then Failure("rank index out of range")
    else
      match ListFrom(d, offset + 1)
      case Failure(e) => Failure(e)
      case Success(rest) => Success([Square(FileAsWritten(d, offset), RankAsWritten(d, offset))] + rest)
  }

  /** `getListOfContainedSquares` as written; when it does not throw, it lists as many squares as the diagonal holds. */
  function ContainedSquaresAsWritten(d: DiagonalIndex): (r: Result<seq<Square>>)
    ensures r.Success? ==> |r.value| == Lines.Length(d)
  {
    ListFrom(d, 0)
  }

  lemma {:induction false} ListFromUpToLongDiagonal(d: DiagonalIndex, offset: nat)
    requires d <= 7 && offset <= Lines.Length(d)
    ensures ListFrom(d, offset) == Success(Lines.ContainedSquares(d)[offset..])
    decreases Lines.Length(d) - offset
  {
    if offset < Lines.Length(d) {
      ListFromUpToLongDiagonal(d, offset + 1);
      var squares := Lines.ContainedSquares(d);
      FormulasUpToLongDiagonal(d, offset);
      assert ListFrom(d, offset).value == [squares[offset]] + squares[offset + 1..];
      assert squares[offset..] == [squares[offset]] + squares[offset + 1..];
    } else {
      assert Lines.ContainedSquares(d)[offset..] == [];
    }
  }

  /** Up to the long diagonal the formulas give file `offset` and rank `d - offset`, the square listed there. */
  lemma FormulasUpToLongDiagonal(d: DiagonalIndex, offset: nat)
    requires d <= 7 && offset < Lines.Length(d)
    ensures OnBoard(FileAsWritten(d, offset), RankAsWritten(d, offset))
    ensures Lines.ContainedSquares(d)[offset] == Square(FileAsWritten(d, offset), RankAsWritten(d, offset))
  {
    assert d / 8 == 0;
    assert FileAsWritten(d, offset) == offset;
    assert RankAsWritten(d, offset) == d - offset;
    assert Lines.ContainedSquares(d)[offset] == Square(offset, d - offset);
  }

  /**
   * As written the list is right up to the long diagonal a8-h1; the diagonals
   * b8-h2 to g8-h7 throw, and h8 yields h1, a square not on it.
   */
  lemma ContainedSquaresAsWrittenByIndex(d: DiagonalIndex)
    ensures d <= 7 ==> ContainedSquaresAsWritten(d) == Success(Lines.ContainedSquares(d))
    ensures 8 <= d <= 13 ==> ContainedSquaresAsWritten(d).Failure?
    ensures d == 14 ==> ContainedSquaresAsWritten(d) == Success([Square(7, 0)]) && !ContainsSquare(d, Square(7, 0))
  {
    if d <= 7 {
      ListFromUpToLongDiagonal(d, 0);
    } else if d <= 13 {
      assert !OnBoard(FileAsWritten(d, 1), RankAsWritten(d, 1));
      assert ListFrom(d, 1).Failure?;
    } else {
      assert d / 8 == 1;
      assert (d / 8) * (d - 7) == 7 && ((d / 8) - 1) * -1 * d == 0;
      assert FileAsWritten(d, 0) == 7 && RankAsWritten(d, 0) == 0;
      assert ListFrom(d, 1) == Success([]);
      assert ListFrom(d, 0).value == [Square(7, 0)] + [];
      assert ContainedSquaresAsWritten(d).value == [Square(7, 0)];
    }
  }
}
