/**
 * `pieceUtilities.King`: the squares a king of one colour attacks and may
 * move to, castling included. The safety of each destination comes from the
 * processed board.
 */
module Kings {
  import opened Wrappers
  import opened Squares
  import opened Directions
  import opened Colors
  import opened Sides
  import opened CastlingRights
  import opened ProcessedBoards
  import Utilities
  import Seqs
  import LineDirection

  /** `Color.getKingCastleSquare` (the colour type is not part of this model): e1 for white, e8 for black. */
  function KingCastleSquare(c: Color): Square {
    Square(KingStartFile, c.BackRank())
  }

  /**
   * `calculatePossibleCastleSquares`: none unless the king stands on its
   * castle square; then the kingside and the queenside target squares.
   */
  function PossibleCastleSquares(c: Color, from: Square): (r: seq<Square>)
    ensures from != KingCastleSquare(c) ==> r == []
    ensures from == KingCastleSquare(c) ==> |r| == 2
    ensures forall s :: s in r <==> from == KingCastleSquare(c) && s.rank == c.BackRank() && (s.file == 6 || s.file == 2)
  {
    if from != KingCastleSquare(c) then []
    else [ByColorAndSide(c, Kingside).TargetKingSquare(), ByColorAndSide(c, Queenside).TargetKingSquare()]
  }

  /** The neighbour of `from` in each direction of `Direction.values()`, in declaration order. */
  function Neighbors(from: Square): (r: seq<Option<Square>>)
    ensures |r| == |Directions.Values|
    ensures forall i :: 0 <= i < |r| ==> r[i] == Neighbor(from, Directions.Values[i])
  {
    seq(9, (i: int) requires 0 <= i < 9 => Neighbor(from, Directions.Values[i]))
  }

  /**
   * `calculatePossibleSquaresToThreaten`: the neighbours that are on the
   * board. NONE is one of the values, and its neighbour is the king's own
   * square.
   */
  function PossibleSquaresToThreaten(from: Square): (r: seq<Square>)
    ensures |r| <= 9
    ensures forall s :: s in r <==> Some(s) in Neighbors(from)
  {
    Utilities.NonNull(Neighbors(from))
  }

  lemma StepIsShort(d: Direction)
    ensures Abs(d.FileDelta()) <= 1 && Abs(d.RankDelta()) <= 1
  {
  }

  lemma ThreatenedIsNear(from: Square, s: Square)
    requires s in PossibleSquaresToThreaten(from)
    ensures Abs(s.file - from.file) <= 1 && Abs(s.rank - from.rank) <= 1
  {
    var neighbors := Neighbors(from);
    var i :| 0 <= i < |neighbors| && neighbors[i] == Some(s);
    StepIsShort(Directions.Values[i]);
  }

  lemma NearIsThreatened(from: Square, s: Square)
    requires Abs(s.file - from.file) <= 1 && Abs(s.rank - from.rank) <= 1
    ensures s in PossibleSquaresToThreaten(from)
  {
    var d := LineDirection.ByDeltas(s.file - from.file, s.rank - from.rank);
    ValuesByOrdinal(d);
    assert Neighbors(from)[d.Ordinal()] == Some(s);
  }

  /** The king threatens exactly the squares at most one file and one rank away, its own square included. */
  lemma ThreatenedExactly(from: Square, s: Square)
    ensures s in PossibleSquaresToThreaten(from) <==> Abs(s.file - from.file) <= 1 && Abs(s.rank - from.rank) <= 1
  {
    if s in PossibleSquaresToThreaten(from) {
      ThreatenedIsNear(from, s);
    }
    if Abs(s.file - from.file) <= 1 && Abs(s.rank - from.rank) <= 1 {
      NearIsThreatened(from, s);
    }
  }

  /**
   * `canCastle`: the right for the side of `end` is still held, nothing
   * stands between its king and rook squares, and the rook's target square
   * is safe for the king.
   */
  predicate CanCastle(c: Color, end: Square, board: ProcessedBoard)
    ensures CanCastle(c, end, board) ==> board.CanCastle(ByColorAndSide(c, ByRelation(end)))
    ensures CanCastle(c, end, board) ==>
      Square(if ByRelation(end).IsKingside() then 5 else 3, c.BackRank()) in board.safeKingDestinations
  {
    var right := ByColorAndSide(c, ByRelation(end));
    board.CanCastle(right)
      && !board.isMovementBlocked(right.KingSquare(), right.RookSquare())
      && right.TargetRookSquare() in board.safeKingDestinations
  }

  /**
   * `getLegalSquaresToMoveTo`: the safe king destinations, in their order,
   * that do not hold a piece of the mover's colour and are either at most
   * one file away or pass `castleValidation`.
   */
  function LegalSquaresToMoveTo(square: Square, board: ProcessedBoard, castleValidation: Square -> bool): (r: seq<Square>)
    ensures |r| <= |board.safeKingDestinations|
    ensures forall s :: s in r <==>
      (s in board.safeKingDestinations && board.IsNotSameColor(s)
        && (Abs(s.file - square.file) < 2 || castleValidation(s)))
  {
    Seqs.Filter(board.safeKingDestinations,
      endSquare => board.IsNotSameColor(endSquare) && (Abs(endSquare.file - square.file) < 2 || castleValidation(endSquare)))
  }

  /** `getSquaresToMoveToNoChecks`: destinations two files away need `canCastle`. */
  function SquaresToMoveToNoChecks(c: Color, square: Square, board: ProcessedBoard): (r: seq<Square>)
    ensures |r| <= |board.safeKingDestinations|
    ensures forall s :: s in r <==>
      (s in board.safeKingDestinations && board.IsNotSameColor(s)
        && (Abs(s.file - square.file) < 2 || CanCastle(c, s, board)))
  {
    LegalSquaresToMoveTo(square, board, end => CanCastle(c, end, board))
  }

  /** `getSquaresToMoveToTwoChecks`: no castling at all. */
  function SquaresToMoveToTwoChecks(square: Square, board: ProcessedBoard): (r: seq<Square>)
    ensures |r| <= |board.safeKingDestinations|
    ensures forall s :: s in r <==> s in board.safeKingDestinations && board.IsNotSameColor(s) && Abs(s.file - square.file) < 2
  {
    LegalSquaresToMoveTo(square, board, end => false)
  }

  /** `getSquaresToMoveToOneCheck`: the same as under two checks. */
  function SquaresToMoveToOneCheck(square: Square, board: ProcessedBoard, check: Square): (r: seq<Square>)
    ensures |r| <= |board.safeKingDestinations|
    ensures forall s :: s in r <==> s in board.safeKingDestinations && board.IsNotSameColor(s) && Abs(s.file - square.file) < 2
  {
    SquaresToMoveToTwoChecks(square, board)
  }

  /**
   * Without check, a king move is a safe destination free of the mover's
   * pieces, and one that crosses two or more files is a castle whose right,
   * free path and safe rook square all hold.
   */
  lemma NoChecksDestinations(c: Color, square: Square, board: ProcessedBoard, s: Square)
    ensures s in SquaresToMoveToNoChecks(c, square, board) ==> s in board.safeKingDestinations && board.IsNotSameColor(s)
    ensures s in SquaresToMoveToNoChecks(c, square, board) && Abs(s.file - square.file) >= 2 ==>
      var right := ByColorAndSide(c, ByRelation(s));
      board.CanCastle(right) && !board.isMovementBlocked(right.KingSquare(), right.RookSquare())
        && right.TargetRookSquare() in board.safeKingDestinations
    ensures s in SquaresToMoveToTwoChecks(square, board) ==> s in SquaresToMoveToNoChecks(c, square, board)
  {
  }

  /** Under one or two checks the king never castles: every destination is at most one file away. */
  lemma NoCastlingInCheck(square: Square, board: ProcessedBoard, check: Square, s: Square)
    ensures s in SquaresToMoveToOneCheck(square, board, check) <==> s in SquaresToMoveToTwoChecks(square, board)
    ensures s in SquaresToMoveToTwoChecks(square, board) ==> Abs(s.file - square.file) <= 1
  {
  }
}
