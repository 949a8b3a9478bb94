/**
 * `stringUtilities.MoveParser.parseAlgebraicNotation`: a string in
 * Standard Algebraic Notation (PGN Standard, section 8.2.3) names the one
 * legal move of its piece type to its end square that agrees with the
 * written start file, start rank, promotion and capture.
 */
module MoveParsing {
  import opened Wrappers
  import opened Squares
  import opened PieceTypes
  import opened Sides
  import opened Colors
  import opened CastlingRights
  import opened MoveMaking
  import opened AlgebraicNotation
  import opened MoveWriting
  import Seqs

  /** What a matched string says about the move: the values of the local variables before filtering. */
  datatype Query = Query(
    piece: PieceType,
    startFile: Option<Coord>,
    startRank: Option<Coord>,
    end: Square,
    isCapture: bool,
    promotion: Option<PieceType>)

  /**
   * The reading of the named groups: a castle is the king's move from its
   * start square to the target square of the right of the side to move
   * (queenside exactly with a third letter); a pawn move starts on its
   * capture file, or on its end file when it does not capture.
   */
  function Interpret(n: Notation, whoseMove: Color): Query {
    match n
    case Castle(letters) =>
      var right := ByColorAndSide(whoseMove, ByBoolean(|letters| == 2));
      Query(King, Some(right.KingSquare().file), Some(right.KingSquare().rank), right.TargetKingSquare(), false, None)
    case PieceMove(piece, startFile, startRank, isCapture, dest) =>
      Query(piece, startFile, startRank, dest, isCapture, None)
    case PawnMove(captureFrom, destFile, destRank, promotion) =>
      Query(Pawn, if captureFrom.Some? then captureFrom else Some(destFile), None, Square(destFile, destRank),
        captureFrom.Some?, promotion)
  }

  /** The filter of the candidates: the written start file and rank, when given, and the same promotion piece. */
  predicate Fits(q: Query, m: Move) {
    (q.startFile.None? || m.start.file == q.startFile.value)
      && (q.startRank.None? || m.start.rank == q.startRank.value)
      && m.promotionPiece == q.promotion
  }

  /** A legal move the query describes: its piece type, its end square and the filter. */
  predicate Describes(q: Query, m: Move) {
    m.movingPiece == q.piece && m.end == q.end && Fits(q, m)
  }

  function Candidates(legalMoves: seq<Move>, q: Query): (r: seq<Move>)
    ensures forall m :: m in r <==> m in legalMoves && Describes(q, m)
  {
    Seqs.Filter(MovesTo(legalMoves, q.piece, q.end), (m: Move) => Fits(q, m))
  }

  /** The result of parsing: the one candidate left, when its capture flag agrees. */
  function Parse(legalMoves: seq<Move>, whoseMove: Color, moveString: string): Option<Move> {
    var matched := Match(moveString);
    if matched.None? then None
    else
      var q := Interpret(matched.value, whoseMove);
      var candidates := Candidates(legalMoves, q);
      if |candidates| != 1 || candidates[0].isCapture != q.isCapture then None
      else Some(candidates[0])
  }

  /**
   * The branches of `parseAlgebraicNotation` that read the named groups into
   * the piece, start file and rank, end square, capture and promotion.
   */
  method ReadGroups(n: Notation, whoseMove: Color) returns (q: Query)
    ensures q == Interpret(n, whoseMove)
  {
    var movingPiece: PieceType;
    var startFile: Option<Coord> := None;
    var startRank: Option<Coord> := None;
    var endSquare: Square;
    var isCapture := false;
    var promotion: Option<PieceType> := None;
    match n {
      case Castle(letters) =>
        movingPiece := King;
        var isKingside := |letters| == 2;
        var right := ByColorAndSide(whoseMove, ByBoolean(isKingside));
        var startSquare := right.KingSquare();
        startFile := Some(startSquare.file);
        startRank := Some(startSquare.rank);
        endSquare := right.TargetKingSquare();
      case PieceMove(piece, file, rank, capture, dest) =>
        movingPiece := piece;
        endSquare := dest;
        startFile := file;
        startRank := rank;
        isCapture := capture;
      case PawnMove(captureFrom, destFile, destRank, promotionPiece) =>
        movingPiece := Pawn;
        promotion := promotionPiece;
        if captureFrom.Some? {
          isCapture := true;
          startFile := captureFrom;
        } else {
          startFile := Some(destFile);
        }
        endSquare := Square(destFile, destRank);
    }
    q := Query(movingPiece, startFile, startRank, endSquare, isCapture, promotion);
  }

  /**
   * `parseAlgebraicNotation`: map the legal moves by piece type and end
   * square, match the string, set the piece, start file and rank, end
   * square, capture and promotion from the groups, look up the candidates
   * (none: null), keep those that fit, and accept the one left when its
   * capture flag agrees.
   */
  method ParseAlgebraicNotation(legalMoves: seq<Move>, whoseMove: Color, moveString: string) returns (r: Option<Move>)
    ensures r == Parse(legalMoves, whoseMove, moveString)
    ensures Match(moveString).None? ==> r.None?
  {
    var endSquareMappings := MapEndSquaresToMovesForPieces(legalMoves);
    var parser := Match(moveString);
    if parser.None? {
      return None;
    }
    var q := ReadGroups(parser.value, whoseMove);
    if !(q.piece in endSquareMappings && q.end in endSquareMappings[q.piece]) {
      assert MovesTo(legalMoves, q.piece, q.end) == [];
      return None;
    }
    var candidates := endSquareMappings[q.piece][q.end];
    candidates := Seqs.Filter(candidates, (m: Move) => Fits(q, m));
    if |candidates| != 1 {
      return None;
    }
    var candidate := candidates[0];
    if candidate.isCapture != q.isCapture {
      return None;
    }
    return Some(candidate);
  }

  /** A parsed move is a legal move that the string describes, capture flag included. */
  lemma ParsedIsLegal(legalMoves: seq<Move>, whoseMove: Color, moveString: string, m: Move)
    requires Parse(legalMoves, whoseMove, moveString) == Some(m)
    ensures Match(moveString).Some?
    ensures var q := Interpret(Match(moveString).value, whoseMove);
      m in legalMoves && Describes(q, m) && m.isCapture == q.isCapture
  {
    var q := Interpret(Match(moveString).value, whoseMove);
    assert m in Candidates(legalMoves, q);
  }

  /**
   * Among legal moves without repetitions, a string is parsed to `m`
   * exactly when `m` is the only legal move it describes and their capture
   * flags agree.
   */
  lemma ParseExactlyOne(legalMoves: seq<Move>, whoseMove: Color, moveString: string, m: Move)
    requires Seqs.Distinct(legalMoves)
    requires Match(moveString).Some?
    ensures var q := Interpret(Match(moveString).value, whoseMove);
      Parse(legalMoves, whoseMove, moveString) == Some(m) <==>
        (m in legalMoves && Describes(q, m) && m.isCapture == q.isCapture
          && forall other :: other in legalMoves && Describes(q, other) ==> other == m)
  {
    var q := Interpret(Match(moveString).value, whoseMove);
    var candidates := Candidates(legalMoves, q);
    Seqs.FilterDistinct(legalMoves, (x: Move) => x.movingPiece == q.piece && x.end == q.end);
    Seqs.FilterDistinct(MovesTo(legalMoves, q.piece, q.end), (x: Move) => Fits(q, x));
    if Parse(legalMoves, whoseMove, moveString) == Some(m) {
      assert candidates == [m];
      forall other | other in legalMoves && Describes(q, other)
        ensures other == m
      {
        assert other in candidates;
      }
    }
    if m in legalMoves && Describes(q, m) && m.isCapture == q.isCapture
      && forall other :: other in legalMoves && Describes(q, other) ==> other == m
    {
      Seqs.OnlyElement(candidates, m);
    }
  }

  /** A castle string gives the king's move of the right of the side to move, queenside exactly with three letters. */
  lemma ParsedCastle(legalMoves: seq<Move>, whoseMove: Color, moveString: string, letters: string, m: Move)
    requires Match(moveString) == Some(Castle(letters))
    requires Parse(legalMoves, whoseMove, moveString) == Some(m)
    ensures var right := ByColorAndSide(whoseMove, if |letters| == 2 then Kingside else Queenside);
      m in legalMoves && m.movingPiece == King && m.start == right.KingSquare() && m.end == right.TargetKingSquare()
        && !m.isCapture && m.promotionPiece.None?
  {
    ParsedIsLegal(legalMoves, whoseMove, moveString, m);
  }

  /** A pawn move without 'x' starts on its end file and captures nothing. */
  lemma ParsedPawnPush(legalMoves: seq<Move>, whoseMove: Color, moveString: string, destFile: Coord, destRank: Coord, promotion: Option<PieceType>, m: Move)
    requires Match(moveString) == Some(PawnMove(None, destFile, destRank, promotion))
    requires Parse(legalMoves, whoseMove, moveString) == Some(m)
    ensures m in legalMoves && m.movingPiece == Pawn && m.start.file == destFile && m.end == Square(destFile, destRank)
      && !m.isCapture && m.promotionPiece == promotion
  {
    ParsedIsLegal(legalMoves, whoseMove, moveString, m);
  }
}
