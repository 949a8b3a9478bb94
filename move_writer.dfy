/**
 * `stringUtilities.MoveWriter`: a move written in Standard Algebraic
 * Notation (PGN Standard, section 8.2.3), with just enough of its start
 * square to tell it apart from the other legal moves of the same piece type
 * to the same square.
 */
module MoveWriting {
  import opened Wrappers
  import opened Squares
  import opened PieceTypes
  import opened Sides
  import opened Colors
  import opened MoveMaking
  import opened AlgebraicNotation
  import Seqs

  /** For each piece type and end square, the moves of that piece type ending there. */
  type EndSquareMap = map<PieceType, map<Square, seq<Move>>>

  /** The moves of piece type `t` ending on `e`, in their order. */
  function MovesTo(moves: seq<Move>, t: PieceType, e: Square): (r: seq<Move>)
    ensures forall m :: m in r <==> m in moves && m.movingPiece == t && m.end == e
  {
    Seqs.Filter(moves, (m: Move) => m.movingPiece == t && m.end == e)
  }

  lemma MovesToAppend(moves: seq<Move>, m: Move, t: PieceType, e: Square)
    ensures MovesTo(moves + [m], t, e) == MovesTo(moves, t, e) + (if m.movingPiece == t && m.end == e then [m] else [])
  {
    Seqs.FilterAppend(moves, m, (x: Move) => x.movingPiece == t && x.end == e);
  }

  /**
   * `map` maps exactly the piece types and end squares some move has to the
   * list of those moves, in order; no list is empty.
   */
  ghost predicate MapsEndSquares(moves: seq<Move>, endSquareMap: EndSquareMap) {
    && (forall t, e :: t in endSquareMap && e in endSquareMap[t] ==>
          endSquareMap[t][e] == MovesTo(moves, t, e) && endSquareMap[t][e] != [])
    && (forall t, e :: MovesTo(moves, t, e) != [] ==> t in endSquareMap && e in endSquareMap[t])
  }

  /**
   * `mapEndSquaresToMovesForPieces`: every move is appended to the list of
   * its piece type and end square, the list and the inner map being created
   * on first use.
   */
  method MapEndSquaresToMovesForPieces(moves: seq<Move>) returns (endSquareMap: EndSquareMap)
    ensures MapsEndSquares(moves, endSquareMap)
  {
    endSquareMap := map[];
    var i := 0;
    while i < |moves|
      invariant 0 <= i <= |moves|
      invariant MapsEndSquares(moves[..i], endSquareMap)
    {
      var move := moves[i];
      var piece := move.movingPiece;
      var squareMapping := if piece in endSquareMap then endSquareMap[piece] else map[];
      var endSquare := move.end;
      var movesWithRelevantDestination := if endSquare in squareMapping then squareMapping[endSquare] else [];
      PrefixStep(moves, i, endSquareMap, squareMapping, movesWithRelevantDestination);
      endSquareMap := endSquareMap[piece := squareMapping[endSquare := movesWithRelevantDestination + [move]]];
      i := i + 1;
    }
    assert moves[..i] == moves;
  }

  /** One turn of the loop: the map of the first `i` moves, extended by move `i`, is the map of the first `i + 1`. */
  lemma PrefixStep(moves: seq<Move>, i: nat, endSquareMap: EndSquareMap, squareMapping: map<Square, seq<Move>>, list: seq<Move>)
    requires i < |moves| && MapsEndSquares(moves[..i], endSquareMap)
    requires squareMapping == if moves[i].movingPiece in endSquareMap then endSquareMap[moves[i].movingPiece] else map[]
    requires list == if moves[i].end in squareMapping then squareMapping[moves[i].end] else []
    ensures MapsEndSquares(moves[..i + 1], endSquareMap[moves[i].movingPiece := squareMapping[moves[i].end := list + [moves[i]]]])
  {
    assert moves[..i + 1] == moves[..i] + [moves[i]];
    MapsEndSquaresStep(moves[..i], endSquareMap, moves[i], squareMapping, list);
  }

  /** Appending one move to the list under its key keeps the map exact. */
  lemma MapsEndSquaresStep(moves: seq<Move>, endSquareMap: EndSquareMap, move: Move,
                            squareMapping: map<Square, seq<Move>>, list: seq<Move>)
    requires MapsEndSquares(moves, endSquareMap)
    requires squareMapping == if move.movingPiece in endSquareMap then endSquareMap[move.movingPiece] else map[]
    requires list == if move.end in squareMapping then squareMapping[move.end] else []
    ensures MapsEndSquares(moves + [move], endSquareMap[move.movingPiece := squareMapping[move.end := list + [move]]])
  {
    var updated := endSquareMap[move.movingPiece := squareMapping[move.end := list + [move]]];
    assert list == MovesTo(moves, move.movingPiece, move.end) by {
      if list == [] {
        assert !(move.movingPiece in endSquareMap && move.end in endSquareMap[move.movingPiece]);
      }
    }
    forall t, e | t in updated && e in updated[t]
      ensures updated[t][e] == MovesTo(moves + [move], t, e) && updated[t][e] != []
    {
      MovesToAppend(moves, move, t, e);
    }
    forall t, e | MovesTo(moves + [move], t, e) != []
      ensures t in updated && e in updated[t]
    {
      MovesToAppend(moves, move, t, e);
    }
  }

  /** Each move is placed under its own piece type and end square, and only there. */
  lemma PlacedUnderItsKey(moves: seq<Move>, endSquareMap: EndSquareMap, m: Move, t: PieceType, e: Square)
    requires MapsEndSquares(moves, endSquareMap)
    ensures m in moves ==>
      (m.movingPiece in endSquareMap && m.end in endSquareMap[m.movingPiece] && m in endSquareMap[m.movingPiece][m.end])
    ensures t in endSquareMap && e in endSquareMap[t] && m in endSquareMap[t][e] ==>
      (m in moves && m.movingPiece == t && m.end == e)
  {
    if m in moves {
      assert m in MovesTo(moves, m.movingPiece, m.end);
    }
  }

  /** Another candidate starts elsewhere. */
  predicate OtherOrigin(candidates: seq<Move>, move: Move) {
    exists c :: c in candidates && c.start != move.start
  }

  /** Another candidate starts elsewhere on the same file. */
  predicate OtherOriginOnFile(candidates: seq<Move>, move: Move) {
    exists c :: c in candidates && c.start != move.start && c.start.file == move.start.file
  }

  /** Another candidate starts elsewhere on the same rank. */
  predicate OtherOriginOnRank(candidates: seq<Move>, move: Move) {
    exists c :: c in candidates && c.start != move.start && c.start.rank == move.start.rank
  }

  /**
   * Whether to write the start file and the start rank: nothing for a single
   * candidate; otherwise the rank when another origin shares the file, the
   * file when another shares the rank, and the file when there are other
   * origins but neither is shared.
   */
  function Disambiguation(candidates: seq<Move>, move: Move): (flags: (bool, bool)) {
    if |candidates| <= 1 then (false, false)
    else
      var includeRank := OtherOriginOnFile(candidates, move);
      var includeFile := OtherOriginOnRank(candidates, move);
      (includeFile || (!includeRank && OtherOrigin(candidates, move)), includeRank)
  }

  /** Whether a move's start square agrees with the file and the rank written for `move`. */
  predicate FitsWritten(c: Move, move: Move, flags: (bool, bool)) {
    (!flags.0 || c.start.file == move.start.file) && (!flags.1 || c.start.rank == move.start.rank)
  }

  /**
   * The written origin is enough: every other candidate starting elsewhere
   * disagrees with it, and neither part is written when no other
   * origin needs it.
   */
  lemma DisambiguationSeparates(candidates: seq<Move>, move: Move, c: Move)
    requires move in candidates
    ensures c in candidates && c.start != move.start ==> !FitsWritten(c, move, Disambiguation(candidates, move))
    ensures !OtherOrigin(candidates, move) ==> Disambiguation(candidates, move) == (false, false)
    ensures Disambiguation(candidates, move).1 ==> OtherOriginOnFile(candidates, move)
    ensures Disambiguation(candidates, move).0 ==> OtherOrigin(candidates, move)
  {
    if c in candidates && c.start != move.start {
      assert OtherOrigin(candidates, move);
      var i :| 0 <= i < |candidates| && candidates[i] == move;
      var j :| 0 <= j < |candidates| && candidates[j] == c;
      assert i != j;
    }
  }

  /**
   * The disambiguation part of `getMoveAsString(endSquareMap, move)`: the
   * loop over the candidates that sets the two flags.
   */
  method DisambiguationFlags(candidates: seq<Move>, move: Move) returns (includeFile: bool, includeRank: bool)
    ensures (includeFile, includeRank) == Disambiguation(candidates, move)
  {
    includeFile := false;
    includeRank := false;
    if |candidates| > 1 {
      var otherCandidates := false;
      var i := 0;
      while i < |candidates|
        invariant 0 <= i <= |candidates|
        invariant otherCandidates == OtherOrigin(candidates[..i], move)
        invariant includeRank == OtherOriginOnFile(candidates[..i], move)
        invariant includeFile == OtherOriginOnRank(candidates[..i], move)
      {
        var candidate := candidates[i];
        assert candidates[..i + 1] == candidates[..i] + [candidate];
        if move.start != candidate.start {
          otherCandidates := true;
          includeRank := includeRank || move.start.file == candidate.start.file;
          includeFile := includeFile || move.start.rank == candidate.start.rank;
        }
        i := i + 1;
      }
      assert candidates[..i] == candidates;
      if !includeFile && !includeRank && otherCandidates {
        includeFile := true;
      }
    }
  }

  /** The text between the piece and the promotion: the requested start file and rank, the capture mark and the end square. */
  function MoveCore(move: Move, includeFile: bool, includeRank: bool): string {
    (if includeFile || (move.movingPiece == Pawn && move.isCapture) then [FileLetter(move.start.file)] else [])
      + (if includeRank then [RankDigit(move.start.rank)] else [])
      + (if move.isCapture then "x" else "")
      + Name(move.end)
  }

  /** `StringBuilder.append` of the promotion piece, which writes "null" for a missing one. */
  function PromotionTextAsWritten(promotion: Option<PieceType>): string {
    if promotion.Some? then promotion.value.ReadableForm() else "null"
  }

  /**
   * `getMoveAsString(move, includeFile, includeRank)` as written: the piece
   * type is appended with its `toString`, the English name, and so is the
   * promotion piece.
   */
  function MoveTextAsWritten(move: Move, includeFile: bool, includeRank: bool): (r: string)
    ensures move.isCastle ==> r == MoveText(move, includeFile, includeRank)
    ensures !move.isCastle ==> move.movingPiece.ReadableForm() <= r
    ensures !move.isCastle && !move.isPromotion ==>
      r == move.movingPiece.ReadableForm() + MoveText(move, includeFile, includeRank)[|PieceText(move.movingPiece)|..]
  {
    if move.isCastle then (if ByRelation(move.end).IsKingside() then "0-0" else "0-0-0")
    else
      move.movingPiece.ReadableForm() + MoveCore(move, includeFile, includeRank)
        + (if move.isPromotion then "=" + PromotionTextAsWritten(move.promotionPiece) else "")
  }

  /** The letter written for a piece type: none for a pawn. */
  function PieceText(t: PieceType): (r: string)
    ensures t == Pawn <==> r == []
    ensures t != Pawn ==> r == t.Letter()
  {
    if t == Pawn then "" else t.Letter()
  }

  function PromotionText(promotion: Option<PieceType>): string {
    if promotion.Some? then promotion.value.Letter() else "null"
  }

  /**
   * The evidently intended `getMoveAsString(move, includeFile, includeRank)`:
   * the same text with the letters of the notation, and none for a pawn.
   */
  function MoveText(move: Move, includeFile: bool, includeRank: bool): (r: string)
    ensures move.isCastle ==> (r == "0-0" <==> ByRelation(move.end).IsKingside()) && (r == "0-0" || r == "0-0-0")
  {
    if move.isCastle then (if ByRelation(move.end).IsKingside() then "0-0" else "0-0-0")
    else
      PieceText(move.movingPiece) + MoveCore(move, includeFile, includeRank)
        + (if move.isPromotion then "=" + PromotionText(move.promotionPiece) else "")
  }

  /** The file written for a move: the start file when asked for, and always for a pawn capture. */
  function WrittenFile(move: Move, includeFile: bool): Option<Coord> {
    if includeFile || (move.movingPiece == Pawn && move.isCapture) then Some(move.start.file) else None
  }

  /**
   * A piece move without promotion is written as the notation of its piece,
   * the requested parts of its start square, its capture and its end square.
   */
  lemma PieceMoveText(move: Move, includeFile: bool, includeRank: bool)
    requires !move.isCastle && move.movingPiece != Pawn && !move.isPromotion
    ensures WellFormed(PieceMove(move.movingPiece, WrittenFile(move, includeFile), if includeRank then Some(move.start.rank) else None, move.isCapture, move.end))
    ensures MoveText(move, includeFile, includeRank)
      == Render(PieceMove(move.movingPiece, WrittenFile(move, includeFile), if includeRank then Some(move.start.rank) else None, move.isCapture, move.end))
  {
  }

  /**
   * A pawn move is written as the notation of a pawn move: the start file
   * exactly for a capture, then the end square and the promotion, when the
   * rank is not asked for and the file only for a capture.
   */
  lemma PawnMoveText(move: Move, includeFile: bool, includeRank: bool)
    requires !move.isCastle && move.movingPiece == Pawn && !includeRank && (includeFile ==> move.isCapture)
    requires move.isPromotion <==> move.promotionPiece.Some?
    requires WellFormed(PawnMove(None, move.end.file, move.end.rank, move.promotionPiece))
    ensures MoveText(move, includeFile, includeRank)
      == Render(PawnMove(if move.isCapture then Some(move.start.file) else None, move.end.file, move.end.rank, move.promotionPiece))
  {
  }

  /** "x" is written exactly for a capture and "=" exactly for a promotion. */
  lemma CaptureAndPromotionMarks(move: Move, includeFile: bool, includeRank: bool)
    requires !move.isCastle
    ensures 'x' in MoveText(move, includeFile, includeRank) <==> move.isCapture
    ensures '=' in MoveText(move, includeFile, includeRank) <==> move.isPromotion
  {
    var core := MoveCore(move, includeFile, includeRank);
    var tail := if move.isPromotion then "=" + PromotionText(move.promotionPiece) else "";
    CoreMarks(move, includeFile, includeRank);
    assert 'x' !in PieceText(move.movingPiece) && '=' !in PieceText(move.movingPiece);
    assert 'x' !in tail && ('=' in tail <==> move.isPromotion);
    assert MoveText(move, includeFile, includeRank) == PieceText(move.movingPiece) + core + tail;
  }

  /** Between the piece and the promotion, "x" appears exactly for a capture, and "=" never. */
  lemma CoreMarks(move: Move, includeFile: bool, includeRank: bool)
    ensures 'x' in MoveCore(move, includeFile, includeRank) <==> move.isCapture
    ensures '=' !in MoveCore(move, includeFile, includeRank)
  {
    var start := (if includeFile || (move.movingPiece == Pawn && move.isCapture) then [FileLetter(move.start.file)] else [])
      + (if includeRank then [RankDigit(move.start.rank)] else []);
    var mark := if move.isCapture then "x" else "";
    assert MoveCore(move, includeFile, includeRank) == start + mark + Name(move.end);
    assert 'x' !in start && '=' !in start;
    assert 'x' !in Name(move.end) && '=' !in Name(move.end);
  }

  /** A knight's move from g1 to f3, the first move of many games. */
  const KnightToF3: Move := Move(White, Knight, Square(6, 0), Square(5, 2), false, None, false, false, None, false, Square(0, 0), Square(0, 0))

  /**
   * As written, the knight's move comes out as "knightf3", which the
   * parser refuses; as intended it is "Nf3", which the parser reads back.
   */
  lemma KnightMoveWrittenAsName()
    ensures MoveTextAsWritten(KnightToF3, false, false) == "knightf3"
    ensures MatchAsWritten(MoveTextAsWritten(KnightToF3, false, false)) == None
    ensures Match(MoveTextAsWritten(KnightToF3, false, false)) == None
    ensures MoveText(KnightToF3, false, false) == "Nf3"
    ensures Match(MoveText(KnightToF3, false, false)) == Some(PieceMove(Knight, None, None, false, Square(5, 2)))
  {
    KnightTextAsWritten();
    NameTextRefused();
    KnightText();
    assert Match(MoveText(KnightToF3, false, false)) == Some(PieceMove(Knight, None, None, false, Square(5, 2))) by {
      PieceMoveText(KnightToF3, false, false);
      MatchAsWrittenOnBareMoves(PieceMove(Knight, None, None, false, Square(5, 2)));
    }
  }

  /** As written, the knight's move from g1 to f3 is spelled with the piece's name. */
  lemma KnightTextAsWritten()
    ensures MoveTextAsWritten(KnightToF3, false, false) == "knightf3"
  {
    var move := KnightToF3;
    assert Name(move.end) == "f3";
    assert MoveTextAsWritten(move, false, false) == move.movingPiece.ReadableForm() + Name(move.end);
  }

  /** As intended, the knight's move from g1 to f3 is "Nf3". */
  lemma KnightText()
    ensures MoveText(KnightToF3, false, false) == "Nf3"
  {
    var move := KnightToF3;
    assert Name(move.end) == "f3";
    assert MoveText(move, false, false) == PieceText(move.movingPiece) + Name(move.end);
  }

  /** "knightf3" is matched by neither the pattern as written nor the intended one. */
  lemma NameTextRefused()
    ensures MatchAsWritten("knightf3") == None && Match("knightf3") == None
  {
    var s := "knightf3";
    assert TrimLeft(s) == s;
    assert TrimRight(s) == s;
    assert DropSuffix(s) == s;
    assert ParsePiece(s) == None;
    assert ParsePawn(s) == None;
    assert ParseCastle(s) == None;
    assert ParseBody(s) == None;
  }

  /**
   * `getMoveAsString(endSquareMap, move)`: the candidates are the moves of
   * the map under the move's piece type and end square, which throws when
   * there are none; the text is `MoveText` with the disambiguation flags.
   */
  method GetMoveAsString(endSquareMap: EndSquareMap, move: Move) returns (r: Result<string>)
    ensures r.Failure? <==> !(move.movingPiece in endSquareMap && move.end in endSquareMap[move.movingPiece])
    ensures r.Success? ==>
      var flags := Disambiguation(endSquareMap[move.movingPiece][move.end], move);
      r.value == MoveText(move, flags.0, flags.1)
  {
    if !(move.movingPiece in endSquareMap && move.end in endSquareMap[move.movingPiece]) {
      return Failure("NullPointerException");
    }
    var candidates := endSquareMap[move.movingPiece][move.end];
    var includeFile, includeRank := DisambiguationFlags(candidates, move);
    return Success(MoveText(move, includeFile, includeRank));
  }

  /** The text of a move among the legal moves of a position. */
  function MoveInContext(legalMoves: seq<Move>, move: Move): string {
    var flags := Disambiguation(MovesTo(legalMoves, move.movingPiece, move.end), move);
    MoveText(move, flags.0, flags.1)
  }

  /**
   * `getMoveAsStringInContext`: map the legal moves of the position, then
   * write the move; a legal move is always written.
   */
  method GetMoveAsStringInContext(move: Move, legalMoves: seq<Move>) returns (r: Result<string>)
    ensures move in legalMoves ==> r == Success(MoveInContext(legalMoves, move))
    ensures r.Success? ==> r.value == MoveInContext(legalMoves, move)
    ensures r.Failure? <==> MovesTo(legalMoves, move.movingPiece, move.end) == []
  {
    var endSquareMap := MapEndSquaresToMovesForPieces(legalMoves);
    if move in legalMoves {
      assert move in MovesTo(legalMoves, move.movingPiece, move.end);
    }
    r := GetMoveAsString(endSquareMap, move);
  }
}
