/**
 * `pieceUtilities.Pawn`: the squares a pawn of one colour may move to or
 * attacks, the validation of each pawn move against the processed board, and
 * the expansion of a move from the seventh rank into its four promotions.
 */
module Pawns {
  import opened Wrappers
  import opened Squares
  import opened Directions
  import opened Colors
  import opened PieceTypes
  import opened MoveTypes
  import opened ProcessedBoards
  import Utilities
  import LineDirection
  import Pieces

  /** `getDirectionsToMoveIn`: the two capture diagonals and the push direction. */
  function DirectionsToMoveIn(c: Color): (r: seq<Direction>)
    ensures |r| == 3 && r[2] == c.PawnPushDirection()
    ensures forall d :: d in r ==> d.RankDelta() == c.PawnPushDirection().RankDelta() != 0
    ensures r[0].FileDelta() == -1 && r[1].FileDelta() == 1 && r[2].FileDelta() == 0
  {
    [c.LeftPawnCaptureDirection(), c.RightPawnCaptureDirection(), c.PawnPushDirection()]
  }

  /** The squares a pawn may reach without capturing, as the rules of chess describe them. */
  predicate IsNonCaptureTarget(c: Color, from: Square, s: Square) {
    var forwards := c.PawnPushDirection().RankDelta();
    || (s.file == from.file && s.rank == from.rank + forwards)
    || (from.rank == c.PawnStartRank() && s.file == from.file && s.rank == from.rank + 2 * forwards)
    || (from.rank == c.EnPassantCaptureRank() && s.rank == from.rank && Abs(s.file - from.file) == 1)
  }

  /**
   * `calculatePossibleNonCaptureMoves`: the push square, the double push
   * from the start rank, and on the en passant rank the two side neighbours
   * (an en passant is recorded with the captured pawn's square as its end),
   * with the squares off the board dropped.
   */
  method PossibleNonCaptureMoves(c: Color, from: Square) returns (r: seq<Square>)
    ensures |r| <= 4
    ensures forall s :: s in r <==> IsNonCaptureTarget(c, from, s)
  {
    var possibleSquares: seq<Option<Square>> := [];
    var forwards := c.PawnPushDirection();
    var pushSquare := Neighbor(from, forwards);
    possibleSquares := possibleSquares + [pushSquare];
    if from.rank == c.PawnStartRank() {
      // From the start rank the push square is always on the board.
      assert pushSquare.Some?;
      possibleSquares := possibleSquares + [Neighbor(pushSquare.value, forwards)];
    }
    if from.rank == c.EnPassantCaptureRank() {
      possibleSquares := possibleSquares + [Neighbor(from, Right), Neighbor(from, Left)];
    }
    r := Utilities.NonNull(possibleSquares);
    forall s
      ensures s in r <==> IsNonCaptureTarget(c, from, s)
    {
      if IsNonCaptureTarget(c, from, s) {
        if s.file == from.file && s.rank == from.rank + forwards.RankDelta() {
          assert possibleSquares[0] == Some(s);
        } else if from.rank == c.PawnStartRank() && s.file == from.file && s.rank == from.rank + 2 * forwards.RankDelta() {
          assert possibleSquares[1] == Some(s);
        } else if s.file == from.file + 1 {
          assert possibleSquares[|possibleSquares| - 2] == Some(s);
        } else {
          assert possibleSquares[|possibleSquares| - 1] == Some(s);
        }
      }
    }
  }

  /** `Square.getDirectionToSquare` (the square type is not part of this model): the signs of the two deltas. */
  function DirectionToSquare(center: Square, s: Square): Direction {
    LineDirection.ByDeltas(Utilities.Sign(s.file - center.file), Utilities.Sign(s.rank - center.rank))
  }

  /**
   * `getDirectionFromCenter`: the direction to the square, except that a
   * sideways one (an en passant recorded on the captured pawn's square)
   * counts as the diagonal the capturing pawn moves along.
   */
  function DirectionFromCenter(c: Color, center: Square, s: Square): (r: Direction)
    ensures r.FileDelta() == Utilities.Sign(s.file - center.file)
    ensures s.rank != center.rank ==> r == DirectionToSquare(center, s)
    ensures s.rank == center.rank ==> r.RankDelta() == c.PawnPushDirection().RankDelta()
  {
    var trueDirection := DirectionToSquare(center, s);
    if trueDirection.RankDelta() == 0 then LineDirection.ByDeltas(trueDirection.FileDelta(), c.PawnPushDirection().RankDelta())
    else trueDirection
  }

  /**
   * Every square a pawn may move to lies in one of its directions to move
   * in: the push for a push or double push, and for an en passant the
   * capture diagonal towards the captured pawn.
   */
  lemma NonCaptureDirections(c: Color, from: Square, s: Square)
    requires IsNonCaptureTarget(c, from, s)
    ensures DirectionFromCenter(c, from, s) in DirectionsToMoveIn(c)
    ensures s.file == from.file <==> DirectionFromCenter(c, from, s) == c.PawnPushDirection()
    ensures s.rank == from.rank ==> DirectionFromCenter(c, from, s).FileDelta() == s.file - from.file
  {
  }

  /**
   * `calculatePossibleSquaresToThreaten`: the left and right capture
   * neighbours that are on the board.
   */
  function PossibleSquaresToThreaten(c: Color, from: Square): (r: seq<Square>)
    ensures |r| <= 2
    ensures forall s :: s in r <==> Some(s) in [Neighbor(from, c.LeftPawnCaptureDirection()), Neighbor(from, c.RightPawnCaptureDirection())]
  {
    Utilities.NonNull([Neighbor(from, c.LeftPawnCaptureDirection()), Neighbor(from, c.RightPawnCaptureDirection())])
  }

  /** A pawn threatens exactly the squares one rank forward and one file to either side. */
  lemma ThreatenedExactly(c: Color, from: Square, s: Square)
    ensures s in PossibleSquaresToThreaten(c, from) <==>
      s.rank == from.rank + c.PawnPushDirection().RankDelta() && Abs(s.file - from.file) == 1
  {
    if s.rank == from.rank + c.PawnPushDirection().RankDelta() && Abs(s.file - from.file) == 1 {
      if s.file < from.file {
        assert Neighbor(from, c.LeftPawnCaptureDirection()) == Some(s);
      } else {
        assert Neighbor(from, c.RightPawnCaptureDirection()) == Some(s);
      }
    }
  }

  /**
   * `validatePawnMove`: a sideways move is an en passant, allowed on the en
   * passant file when the capture is not pinned; otherwise an empty target
   * must be on the same file and an occupied one on another file and hold a
   * piece not of the pawn's colour.
   */
  predicate ValidatePawnMove(c: Color, start: Square, end: Square, board: ProcessedBoard)
    ensures ValidatePawnMove(c, start, end, board) && start.rank == end.rank ==> board.enPassantFile == Some(end.file)
    ensures ValidatePawnMove(c, start, end, board) && start.rank != end.rank ==> (board.IsEmptySquare(end) <==> start.file == end.file)
    ensures ValidatePawnMove(c, start, end, board) && !board.IsEmptySquare(end) && start.rank != end.rank ==> board.pieceAt(end).Color() != Some(c)
  {
    if start.rank == end.rank then board.enPassantFile == Some(end.file) && !board.isEnPassantPinned(start.file)
    else
      var occupant := board.pieceAt(end);
      var sameFile := start.file == end.file;
      if board.IsEmptySquare(end) then sameFile else !sameFile && occupant.Color() != Some(c)
  }

  /**
   * The three kinds of valid pawn move: an unpinned en passant on the en
   * passant file, a move along the file onto an empty square, and a
   * capture of an opposing piece on another file.
   */
  lemma ValidPawnMoveKinds(c: Color, start: Square, end: Square, board: ProcessedBoard)
    ensures ValidatePawnMove(c, start, end, board) <==>
      || (start.rank == end.rank && board.enPassantFile == Some(end.file) && !board.isEnPassantPinned(start.file))
      || (start.rank != end.rank && start.file == end.file && board.IsEmptySquare(end))
      || (start.rank != end.rank && start.file != end.file && board.pieceAt(end).Color() == Some(c.Other()))
  {
    var occupant := board.pieceAt(end);
    if start.rank != end.rank && !board.IsEmptySquare(end) {
      assert occupant.Color().Some? by {
        Pieces.DerivationMatchesNames(occupant);
      }
    }
  }

  /** `isMovementAllowed`: a valid pawn move whose path is not blocked. */
  predicate IsMovementAllowed(c: Color, start: Square, end: Square, board: ProcessedBoard)
    ensures board.isMovementBlocked(start, end) ==> !IsMovementAllowed(c, start, end, board)
    ensures IsMovementAllowed(c, start, end, board) && start.rank != end.rank && start.file == end.file ==> board.IsEmptySquare(end)
  {
    ValidatePawnMove(c, start, end, board) && !board.isMovementBlocked(start, end)
  }

  /**
   * `addSquareToListOfMoves`: an occupied square on the pawn's own file
   * stops the scan and is not added; any other square is added when it is
   * a valid pawn move.
   */
  method AddSquareToListOfMoves(c: Color, start: Square, end: Square, board: ProcessedBoard, list: seq<Square>)
    returns (shouldBreak: bool, newList: seq<Square>)
    ensures shouldBreak <==> !board.IsEmptySquare(end) && end.file == start.file
    ensures shouldBreak || !ValidatePawnMove(c, start, end, board) ==> newList == list
    ensures !shouldBreak && ValidatePawnMove(c, start, end, board) ==> newList == list + [end]
    ensures forall s :: s in newList ==> s in list || (s == end && IsAddable(c, start, end, board))
  {
    shouldBreak := !board.IsEmptySquare(end) && end.file == start.file;
    newList := list;
    if !shouldBreak && ValidatePawnMove(c, start, end, board) {
      newList := list + [end];
    }
  }

  /** A square the scan adds: a valid pawn move, and onto an empty square when it keeps the file. */
  predicate IsAddable(c: Color, start: Square, end: Square, board: ProcessedBoard) {
    ValidatePawnMove(c, start, end, board) && (end.file == start.file ==> board.IsEmptySquare(end))
  }

  /** A pawn never captures straight ahead: a valid move along its file that changes rank lands on an empty square. */
  lemma NoCaptureAlongFile(c: Color, start: Square, end: Square, board: ProcessedBoard)
    requires ValidatePawnMove(c, start, end, board) && start.file == end.file && start.rank != end.rank
    ensures board.IsEmptySquare(end)
  {
  }

  /** The facts `convertSquareToMove` turns into a move: the squares, the kind, and the promotion piece. */
  datatype PawnMove = PawnMove(start: Square, end: Square, kind: MoveType, promotion: Option<PieceType>)

  predicate IsPromotionKind(kind: MoveType) {
    kind == Promotion || kind == PromotionWithCapture
  }

  /** The moves of a pawn off its seventh rank: four per square, one per promotion piece in array order. */
  function PromotionMoves(start: Square, squares: seq<Square>, inferMoveType: Square -> MoveType): (r: seq<PawnMove>)
    ensures |r| == 4 * |squares|
  {
    if squares == [] then []
    else
      var last := squares[|squares| - 1];
      PromotionMoves(start, squares[..|squares| - 1], inferMoveType)
        + seq(4, k requires 0 <= k < 4 => PawnMove(start, last, inferMoveType(last), Some(PromotionPieces[k])))
  }

  /** The promotion moves for square `i` sit at positions 4i to 4i+3, in the order of the promotion pieces. */
  lemma {:induction false} PromotionMovesAt(start: Square, squares: seq<Square>, inferMoveType: Square -> MoveType, i: nat, k: nat)
    requires i < |squares| && k < 4
    ensures PromotionMoves(start, squares, inferMoveType)[4 * i + k]
      == PawnMove(start, squares[i], inferMoveType(squares[i]), Some(PromotionPieces[k]))
  {
    var init := squares[..|squares| - 1];
    if i < |squares| - 1 {
      assert init[i] == squares[i];
      PromotionMovesAt(start, init, inferMoveType, i, k);
    }
  }

  /**
   * `convertSquaresToMoves`: away from the seventh rank each square is one
   * move (the shared piece code this delegates to is not part of this
   * model); from the seventh rank every square must be a promotion, and
   * throws otherwise, and becomes four moves.
   */
  method ConvertSquaresToMoves(c: Color, start: Square, squares: seq<Square>, inferMoveType: Square -> MoveType)
    returns (r: Result<seq<PawnMove>>)
    ensures start.rank != c.Other().PawnStartRank() ==> (r.Success? && |r.value| == |squares|
      && forall i :: 0 <= i < |squares| ==> r.value[i] == PawnMove(start, squares[i], inferMoveType(squares[i]), None))
    ensures start.rank == c.Other().PawnStartRank() ==>
      (r.Failure? <==> exists i :: 0 <= i < |squares| && !IsPromotionKind(inferMoveType(squares[i])))
    ensures start.rank == c.Other().PawnStartRank() && r.Success? ==> r.value == PromotionMoves(start, squares, inferMoveType)
  {
    if start.rank != c.Other().PawnStartRank() {
      return Success(seq(|squares|, i requires 0 <= i < |squares| => PawnMove(start, squares[i], inferMoveType(squares[i]), None)));
    }
    var moves: seq<PawnMove> := [];
    var i := 0;
    while i < |squares|
      invariant 0 <= i <= |squares|
      invariant forall j :: 0 <= j < i ==> IsPromotionKind(inferMoveType(squares[j]))
      invariant moves == PromotionMoves(start, squares[..i], inferMoveType)
    {
      var moveSquare := squares[i];
      var kind := inferMoveType(moveSquare);
      if !IsPromotionKind(kind) {
        return Failure("A pawn at its seventh rank needs to promote");
      }
      var k := 0;
      ghost var before := moves;
      while k < 4
        invariant 0 <= k <= 4
        invariant moves == before + seq(k, n requires 0 <= n < k => PawnMove(start, moveSquare, kind, Some(PromotionPieces[n])))
      {
        moves := moves + [PawnMove(start, moveSquare, kind, Some(PromotionPieces[k]))];
        k := k + 1;
      }
      assert squares[..i + 1][..i] == squares[..i];
      i := i + 1;
    }
    assert squares[..i] == squares;
    return Success(moves);
  }

  /** From the seventh rank every move promotes, to one of the four promotion pieces. */
  lemma PromotionMovesPromote(start: Square, squares: seq<Square>, inferMoveType: Square -> MoveType, n: nat)
    requires n < |PromotionMoves(start, squares, inferMoveType)|
    ensures var m := PromotionMoves(start, squares, inferMoveType)[n];
      m.start == start && m.end in squares && m.promotion.Some? && m.promotion.value.IsPromotionPiece()
  {
    PromotionMovesAt(start, squares, inferMoveType, n / 4, n % 4);
    PromotionPiecesExactly(PromotionPieces[n % 4]);
  }
}
