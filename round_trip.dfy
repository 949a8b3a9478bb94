/**
 * The move writer and the move parser are inverse on the legal moves of a
 * position: the text written for a legal move is parsed back to that move.
 * The legal moves are required to be told apart by their piece type, start
 * square, end square and promotion piece, as they are in chess.
 */
module NotationRoundTrip {
  import opened Wrappers
  import opened Squares
  import opened PieceTypes
  import opened Sides
  import opened Colors
  import opened CastlingRights
  import opened MoveMaking
  import opened AlgebraicNotation
  import opened MoveWriting
  import opened MoveParsing
  import Seqs

  /** No two legal moves share their piece type, start square, end square and promotion piece. */
  predicate RouteUnique(legalMoves: seq<Move>) {
    forall a, b ::
      (a in legalMoves && b in legalMoves && a.movingPiece == b.movingPiece && a.start == b.start
        && a.end == b.end && a.promotionPiece == b.promotionPiece) ==> a == b
  }

  /** When the query is met by `m` and by nothing else, the string is parsed to `m`. */
  lemma ParsedWhenOnlyOne(legalMoves: seq<Move>, whoseMove: Color, text: string, n: Notation, m: Move)
    requires Seqs.Distinct(legalMoves)
    requires Match(text) == Some(n)
    requires m in legalMoves && Describes(Interpret(n, whoseMove), m) && m.isCapture == Interpret(n, whoseMove).isCapture
    requires forall other :: other in legalMoves && Describes(Interpret(n, whoseMove), other) ==> other.start == m.start
    requires RouteUnique(legalMoves)
    ensures Parse(legalMoves, whoseMove, text) == Some(m)
  {
    ParseExactlyOne(legalMoves, whoseMove, text, m);
  }

  /** A legal move of a piece other than the pawn, without promotion, is parsed back from its text. */
  lemma PieceMoveRoundTrip(legalMoves: seq<Move>, whoseMove: Color, m: Move)
    requires Seqs.Distinct(legalMoves) && RouteUnique(legalMoves)
    requires m in legalMoves && !m.isCastle && m.movingPiece != Pawn && !m.isPromotion && m.promotionPiece.None?
    ensures Parse(legalMoves, whoseMove, MoveInContext(legalMoves, m)) == Some(m)
  {
    var candidates := MovesTo(legalMoves, m.movingPiece, m.end);
    var flags := Disambiguation(candidates, m);
    var n := PieceMove(m.movingPiece, WrittenFile(m, flags.0), if flags.1 then Some(m.start.rank) else None, m.isCapture, m.end);
    PieceMoveText(m, flags.0, flags.1);
    MatchAsWrittenOnBareMoves(n);
    var q := Interpret(n, whoseMove);
    forall other | other in legalMoves && Describes(q, other)
      ensures other.start == m.start
    {
      assert other in candidates;
      DisambiguationSeparates(candidates, m, other);
    }
    ParsedWhenOnlyOne(legalMoves, whoseMove, MoveInContext(legalMoves, m), n, m);
  }

  /** The letters the writer uses for a castle towards the side of `end`. */
  function CastleLetters(end: Square): string {
    if ByRelation(end).IsKingside() then "00" else "000"
  }

  /** A castle is written as the rendering of its castle notation. */
  lemma CastleText(legalMoves: seq<Move>, m: Move)
    requires m.isCastle
    ensures WellFormed(Castle(CastleLetters(m.end)))
    ensures MoveInContext(legalMoves, m) == Render(Castle(CastleLetters(m.end)))
  {
  }

  /** Read back, the castle notation names the king's move of the right on the side of `end`. */
  lemma CastleQuery(whoseMove: Color, end: Square)
    ensures var right := ByColorAndSide(whoseMove, ByRelation(end));
      Interpret(Castle(CastleLetters(end)), whoseMove)
        == Query(King, Some(right.KingSquare().file), Some(right.KingSquare().rank), right.TargetKingSquare(), false, None)
  {
    assert ByBoolean(|CastleLetters(end)| == 2) == ByRelation(end);
  }

  /**
   * A legal castle of the side to move, from the king's square to the
   * target square of its right, is parsed back from "0-0" or "0-0-0".
   */
  lemma CastleRoundTrip(legalMoves: seq<Move>, whoseMove: Color, m: Move)
    requires Seqs.Distinct(legalMoves) && RouteUnique(legalMoves)
    requires m in legalMoves && m.isCastle && m.movingPiece == King && !m.isCapture && m.promotionPiece.None?
    requires var right := ByColorAndSide(whoseMove, ByRelation(m.end));
      m.start == right.KingSquare() && m.end == right.TargetKingSquare()
    ensures Parse(legalMoves, whoseMove, MoveInContext(legalMoves, m)) == Some(m)
  {
    var n := Castle(CastleLetters(m.end));
    var text := MoveInContext(legalMoves, m);
    assert Match(text) == Some(n) by {
      CastleText(legalMoves, m);
      MatchAsWrittenOnBareMoves(n);
    }
    var q := Interpret(n, whoseMove);
    assert q == Query(King, Some(m.start.file), Some(m.start.rank), m.end, false, None) by {
      CastleQuery(whoseMove, m.end);
    }
    assert forall other :: other in legalMoves && Describes(q, other) ==> other.start == m.start by {
      forall other | other in legalMoves && Describes(q, other)
        ensures other.start == m.start
      {
        assert other.start.file == m.start.file && other.start.rank == m.start.rank;
      }
    }
    ParsedWhenOnlyOne(legalMoves, whoseMove, text, n, m);
  }

  /**
   * A legal pawn move that no other pawn move to the same square shares,
   * whose promotion agrees with its end rank and whose non-capture stays on
   * its file, is parsed back from its text.
   */
  lemma PawnMoveRoundTrip(legalMoves: seq<Move>, whoseMove: Color, m: Move)
    requires Seqs.Distinct(legalMoves) && RouteUnique(legalMoves)
    requires m in legalMoves && !m.isCastle && m.movingPiece == Pawn
    requires forall other :: other in legalMoves && other.movingPiece == Pawn && other.end == m.end ==> other.start == m.start
    requires !m.isCapture ==> m.start.file == m.end.file
    requires m.isPromotion <==> m.promotionPiece.Some?
    requires WellFormed(PawnMove(None, m.end.file, m.end.rank, m.promotionPiece))
    ensures Parse(legalMoves, whoseMove, MoveInContext(legalMoves, m)) == Some(m)
  {
    var candidates := MovesTo(legalMoves, Pawn, m.end);
    assert !OtherOrigin(candidates, m);
    assert m in candidates;
    DisambiguationSeparates(candidates, m, m);
    var n := PawnMove(if m.isCapture then Some(m.start.file) else None, m.end.file, m.end.rank, m.promotionPiece);
    PawnMoveText(m, false, false);
    MatchAsWrittenOnBareMoves(n);
    ParsedWhenOnlyOne(legalMoves, whoseMove, MoveInContext(legalMoves, m), n, m);
  }
}
