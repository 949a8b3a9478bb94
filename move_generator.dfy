/**
 * `immutableArrayBoard.ImmutableArrayMoveGenerator`: the legal moves of a
 * position are the legal moves of every piece of the side to move, or only
 * those of its king when more than one piece gives check. The generator
 * keeps what it learnt about the last position in its fields.
 */
module MoveGeneration {
  import opened Wrappers
  import opened Squares
  import opened Colors
  import opened PieceTypes
  import opened Pieces
  import opened MoveMaking
  import opened ProcessedBoards
  import Utilities

  /** The piece of the side to move of each type of `PieceType.values()`, in type order. */
  function OwnPieces(toMove: Color): (r: seq<Piece>)
    ensures |r| == |PieceTypes.Values|
    ensures forall i :: 0 <= i < |r| ==> r[i].Color() == Some(toMove) && r[i].Type() == Some(PieceTypes.Values[i])
  {
    seq(|PieceTypes.Values|, i requires 0 <= i < |PieceTypes.Values| => ByColorAndType(Some(toMove), Some(PieceTypes.Values[i])))
  }

  /** `getSquaresForPiecesOfThisColor` applied to every type, in type order. */
  function SquaresPerType(board: ProcessedBoard, toMove: Color): (r: seq<seq<Square>>)
    ensures |r| == |PieceTypes.Values|
  {
    seq(|PieceTypes.Values|, i requires 0 <= i < |PieceTypes.Values| => board.squaresOf(OwnPieces(toMove)[i]))
  }

  /** The squares whose pieces move: the king's alone under more than one check, otherwise all, in round-robin type order. */
  function PieceSquares(board: ProcessedBoard, toMove: Color, checks: seq<Square>, kingSquare: Square): seq<Square> {
    if |checks| > 1 then [kingSquare] else Utilities.RoundRobin(SquaresPerType(board, toMove))
  }

  /** `getLegalMoves` for the piece on each square: the checks of `Piece.getLegalMoves` pass on every one. */
  predicate GuardsPass(board: ProcessedBoard, squares: seq<Square>) {
    forall i :: 0 <= i < |squares| ==> LegalMovesGuard(board.pieceAt(squares[i]), true, board.whoseMove).Pass?
  }

  /** The legal moves of the pieces on `squares`, square after square. */
  function MovesOf(board: ProcessedBoard, squares: seq<Square>): seq<Move> {
    if squares == [] then []
    else MovesOf(board, squares[..|squares| - 1]) + board.legalMovesAt(squares[|squares| - 1])
  }

  /** A move is generated exactly when it is a legal move of the piece on one of the squares. */
  lemma {:induction false} MovesOfExactly(board: ProcessedBoard, squares: seq<Square>, m: Move)
    ensures m in MovesOf(board, squares) <==> exists i :: 0 <= i < |squares| && m in board.legalMovesAt(squares[i])
  {
    if squares != [] {
      var init := squares[..|squares| - 1];
      MovesOfExactly(board, init, m);
      if exists i :: 0 <= i < |squares| && m in board.legalMovesAt(squares[i]) {
        var i :| 0 <= i < |squares| && m in board.legalMovesAt(squares[i]);
        if i < |init| {
          assert init[i] == squares[i];
        }
      }
      if m in MovesOf(board, init) {
        var i :| 0 <= i < |init| && m in board.legalMovesAt(init[i]);
        assert init[i] == squares[i];
      }
    }
  }

  /** An element of the lists' combined multiset is an element of one of the lists. */
  lemma {:induction false} AllElementsMembership<T>(lists: seq<seq<T>>, x: T)
    ensures x in Utilities.AllElements(lists) <==> exists i :: 0 <= i < |lists| && x in lists[i]
  {
    if lists != [] {
      var init := lists[..|lists| - 1];
      AllElementsMembership(init, x);
      if exists i :: 0 <= i < |lists| && x in lists[i] {
        var i :| 0 <= i < |lists| && x in lists[i];
        if i < |init| {
          assert init[i] == lists[i];
        }
      }
      if x in Utilities.AllElements(init) {
        var i :| 0 <= i < |init| && x in init[i];
        assert init[i] == lists[i];
      }
    }
  }

  /** Under more than one check, the generated moves are exactly the king's. */
  lemma DoubleCheckOnlyKing(board: ProcessedBoard, toMove: Color, checks: seq<Square>, kingSquare: Square, m: Move)
    requires |checks| > 1
    ensures m in MovesOf(board, PieceSquares(board, toMove, checks, kingSquare)) <==> m in board.legalMovesAt(kingSquare)
  {
    MovesOfExactly(board, [kingSquare], m);
  }

  /** Otherwise they are the moves of every square holding a piece of the side to move, of any type. */
  lemma AllPiecesMove(board: ProcessedBoard, toMove: Color, checks: seq<Square>, kingSquare: Square, m: Move)
    requires |checks| <= 1
    ensures m in MovesOf(board, PieceSquares(board, toMove, checks, kingSquare)) <==>
      exists t, s :: 0 <= t < |PieceTypes.Values| && s in board.squaresOf(OwnPieces(toMove)[t]) && m in board.legalMovesAt(s)
  {
    var lists := SquaresPerType(board, toMove);
    var squares := Utilities.RoundRobin(lists);
    MovesOfExactly(board, squares, m);
    Utilities.ConcatIsPermutation(lists);
    if m in MovesOf(board, squares) {
      var i :| 0 <= i < |squares| && m in board.legalMovesAt(squares[i]);
      assert squares[i] in multiset(squares);
      AllElementsMembership(lists, squares[i]);
    }
    if exists t, s :: 0 <= t < |PieceTypes.Values| && s in board.squaresOf(OwnPieces(toMove)[t]) && m in board.legalMovesAt(s) {
      var t, s :| 0 <= t < |PieceTypes.Values| && s in board.squaresOf(OwnPieces(toMove)[t]) && m in board.legalMovesAt(s);
      assert s in lists[t];
      AllElementsMembership(lists, s);
      assert s in multiset(squares);
      var i :| 0 <= i < |squares| && squares[i] == s;
    }
  }

  class ImmutableArrayMoveGenerator {
    var preprocessing: Option<ProcessedBoard>
    var checks: Option<seq<Square>>
    var moves: seq<Move>
    var toMove: Option<Color>
    var kingSquare: Option<Square>

    /** A generator that has not calculated anything: every field is null. */
    constructor ()
      ensures preprocessing.None? && checks.None? && toMove.None? && kingSquare.None? && moves == []
    {
      preprocessing := None;
      checks := None;
      moves := [];
      toMove := None;
      kingSquare := None;
    }

    /**
     * `calculateMoves`: record the processed board, its checks and the
     * colour to move, start an empty move list, find the king (the first
     * square of the own king's list, which throws when it is empty) and
     * realize the moves. The processed board is given already calculated.
     */
    method CalculateMoves(board: ProcessedBoard) returns (r: Result<set<Move>>)
      modifies this
      ensures preprocessing == Some(board) && checks == Some(board.attackers) && toMove == Some(board.whoseMove)
      ensures IsInCheck() == Success(|board.attackers| > 0)
      ensures var kings := board.squaresOf(ByColorAndType(Some(board.whoseMove), Some(King)));
        && (kings == [] ==> r.Failure?)
        && (kings != [] ==>
          var squares := PieceSquares(board, board.whoseMove, board.attackers, kings[0]);
          && kingSquare == Some(kings[0])
          && (r.Success? <==> GuardsPass(board, squares))
          && (r.Success? ==> moves == MovesOf(board, squares) && r.value == set m | m in moves))
    {
      preprocessing := Some(board);
      checks := Some(board.attackers);
      toMove := Some(board.whoseMove);
      moves := [];
      var kings := board.squaresOf(ByColorAndType(Some(board.whoseMove), Some(King)));
      if kings == [] {
        return Failure("Index 0 out of bounds for length 0");
      }
      kingSquare := Some(kings[0]);
      var realized := RealizeMoves();
      if realized.Fail? {
        return Failure(realized.error);
      }
      return Success(set m | m in moves);
    }

    /**
     * `realizeMoves`: pick the squares whose pieces move, then add the legal
     * moves of the piece on each square in turn; `getLegalMoves` throws on
     * a square whose piece is missing or of the wrong colour.
     */
    method RealizeMoves() returns (r: Outcome)
      requires preprocessing.Some? && checks.Some? && toMove.Some? && kingSquare.Some?
      modifies this
      ensures preprocessing == old(preprocessing) && checks == old(checks) && toMove == old(toMove) && kingSquare == old(kingSquare)
      ensures var squares := PieceSquares(preprocessing.value, toMove.value, checks.value, kingSquare.value);
        && (r.Pass? <==> GuardsPass(preprocessing.value, squares))
        && (r.Pass? ==> moves == old(moves) + MovesOf(preprocessing.value, squares))
    {
      var board := preprocessing.value;
      var pieceSquares: seq<Square>;
      if |checks.value| > 1 {
        pieceSquares := [kingSquare.value];
      } else {
        pieceSquares := Utilities.Concat(SquaresPerType(board, toMove.value));
      }
      r := AddMovesOf(board, pieceSquares);
    }

    /** The loop of `realizeMoves`: add the legal moves of the piece on each square, in order. */
    method AddMovesOf(board: ProcessedBoard, pieceSquares: seq<Square>) returns (r: Outcome)
      modifies this
      ensures preprocessing == old(preprocessing) && checks == old(checks) && toMove == old(toMove) && kingSquare == old(kingSquare)
      ensures r.Pass? <==> GuardsPass(board, pieceSquares)
      ensures r.Pass? ==> moves == old(moves) + MovesOf(board, pieceSquares)
    {
      var i := 0;
      while i < |pieceSquares|
        invariant 0 <= i <= |pieceSquares|
        invariant preprocessing == old(preprocessing) && checks == old(checks) && toMove == old(toMove) && kingSquare == old(kingSquare)
        invariant GuardsPass(board, pieceSquares[..i])
        invariant moves == old(moves) + MovesOf(board, pieceSquares[..i])
      {
        var square := pieceSquares[i];
        var guard := LegalMovesGuard(board.pieceAt(square), true, board.whoseMove);
        if guard.Fail? {
          return guard;
        }
        assert pieceSquares[..i + 1][..i] == pieceSquares[..i];
        moves := moves + board.legalMovesAt(square);
        i := i + 1;
      }
      assert pieceSquares[..i] == pieceSquares;
      return Pass;
    }

    /** `isInCheck`: throws before any calculation, otherwise whether any piece gives check. */
    function IsInCheck(): (r: Result<bool>)
      reads this
      ensures r.Failure? <==> checks.None?
      ensures r.Success? ==> (r.value <==> |checks.value| > 0)
    {
      if checks.None? then Failure("Expected moves to already have been calculated")
      else Success(|checks.value| > 0)
    }
  }
}
