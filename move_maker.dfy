/**
 * `representation.MoveMaker`: the rule that turns a position and a legal move
 * into the next position, stated against the abstract `BoardBuilder` (its
 * setters put a piece on a square, set or clear a castling right, set the en
 * passant file and the colour to move, and record the last move).
 */
module MoveMaking {
  import opened Wrappers
  import opened Squares
  import opened Colors
  import opened Sides
  import opened CastlingRights
  import opened PieceTypes
  import opened Pieces

  /** The facts about a move that `performMove` reads. */
  datatype Move = Move(
    movingColor: Color,
    movingPiece: PieceType,
    start: Square,
    end: Square,
    isCapture: bool,
    capturedPiece: Option<PieceType>,
    isCastle: bool,
    isPromotion: bool,
    promotionPiece: Option<PieceType>,
    isEnPassant: bool,
    enPassantDestination: Square,
    enPassantCapture: Square)

  /** One piece per square, indexed by the square's ordinal. */
  type Placement = s: seq<Piece> | |s| == 64 witness seq(64, _ => NoPiece)

  datatype Position = Position(
    pieces: Placement,
    rights: set<CastlingRight>,
    enPassantFile: Option<Coord>,
    colorToMove: Color,
    lastMove: Option<Move>)
  {
    function PieceAt(s: Square): Piece {
      pieces[Ordinal(s)]
    }
  }

  /** The piece of the mover's colour of the given type; none for no type. */
  function Own(color: Color, kind: Option<PieceType>): Piece {
    ByColorAndType(Some(color), kind)
  }

  /** A pawn push of two ranks, which opens en passant on its file. */
  predicate IsDoublePush(m: Move) {
    m.movingPiece == Pawn && !m.isEnPassant && !m.isPromotion && Abs(m.start.rank - m.end.rank) == 2
  }

  /** The castling right whose rook a castling king move also moves: the mover's, on the side of the end square. */
  function CastleRight(m: Move): CastlingRight {
    ByColorAndSide(m.movingColor, ByRelation(m.end))
  }

  /** The castling rights a move takes away: the mover's at the start square for a king or rook, the opponent's at the end square when a rook is captured. */
  function RevokedRights(m: Move): set<CastlingRight> {
    MoverRevoked(m) + (if m.isCapture && m.capturedPiece == Some(Rook) then AffectedRights(m.movingColor.Other(), m.end) else {})
  }

  /** The rights a king or rook move gives up at its start square. */
  function MoverRevoked(m: Move): set<CastlingRight> {
    if m.movingPiece == King || m.movingPiece == Rook then AffectedRights(m.movingColor, m.start) else {}
  }

  /** The squares whose contents a move can change. */
  function TouchedSquares(m: Move): set<Square> {
    if m.movingPiece == Pawn && m.isEnPassant then {m.start, m.enPassantDestination, m.enPassantCapture}
    else if m.movingPiece == King && m.isCastle then {m.start, m.end, CastleRight(m).RookSquare(), CastleRight(m).TargetRookSquare()}
    else {m.start, m.end}
  }

  /** A `BoardBuilder` seeded with a position; each setter changes only what it names. */
  class PositionBuilder {
    var pieces: Placement
    var rights: set<CastlingRight>
    var enPassantFile: Option<Coord>
    var colorToMove: Color
    var lastMove: Option<Move>

    /** `getNewBuilderFromBoard`. */
    constructor FromPosition(p: Position)
      ensures Build() == p
    {
      pieces := p.pieces;
      rights := p.rights;
      enPassantFile := p.enPassantFile;
      colorToMove := p.colorToMove;
      lastMove := p.lastMove;
    }

    function Build(): Position
      reads this
    {
      Position(pieces, rights, enPassantFile, colorToMove, lastMove)
    }

    method WithPieceAtSquare(piece: Piece, square: Square)
      modifies this
      ensures Build() == old(Build()).(pieces := old(pieces)[Ordinal(square) := piece])
    {
      pieces := pieces[Ordinal(square) := piece];
    }

    method WithCastlingRight(right: CastlingRight, enabled: bool)
      modifies this
      ensures Build() == old(Build()).(rights := if enabled then old(rights) + {right} else old(rights) - {right})
    {
      rights := if enabled then rights + {right} else rights - {right};
    }

    method WithEnPassant(file: Option<Coord>)
      modifies this
      ensures Build() == old(Build()).(enPassantFile := file)
    {
      enPassantFile := file;
    }

    method WithColorToMove(color: Color)
      modifies this
      ensures Build() == old(Build()).(colorToMove := color)
    {
      colorToMove := color;
    }

    method WithLastMove(move: Move)
      modifies this
      ensures Build() == old(Build()).(lastMove := Some(move))
    {
      lastMove := Some(move);
    }

    /** `withCastlingRight(right, false)` for each right of a set, in any order. */
    method RevokeRights(revoked: set<CastlingRight>)
      modifies this
      ensures Build() == old(Build()).(rights := old(rights) - revoked)
    {
      var remaining := revoked;
      while remaining != {}
        invariant remaining <= revoked
        invariant Build() == old(Build()).(rights := old(rights) - (revoked - remaining))
        decreases remaining
      {
        var right :| right in remaining;
        WithCastlingRight(right, false);
        remaining := remaining - {right};
      }
    }

    /** `switchSquares`: the mover's piece of the given type on the end square, then nothing on the start square. */
    method SwitchSquares(kind: Option<PieceType>, start: Square, end: Square, whoseMove: Color)
      modifies this
      ensures Build() == old(Build()).(pieces := old(pieces)[Ordinal(end) := Own(whoseMove, kind)][Ordinal(start) := NoPiece])
    {
      WithPieceAtSquare(Own(whoseMove, kind), end);
      WithPieceAtSquare(NoPiece, start);
    }
  }

  /** The mover's piece of the given type on `end`, then nothing on `start`. */
  function Switched(p: Placement, kind: Option<PieceType>, start: Square, end: Square, color: Color): (r: Placement)
    ensures r[Ordinal(start)] == NoPiece
    ensures start != end ==> r[Ordinal(end)] == Own(color, kind)
    ensures forall s: Square :: s != start && s != end ==> r[Ordinal(s)] == p[Ordinal(s)]
  {
    OrdinalInjective(start, end);
    forall s: Square | s != start && s != end
      ensures p[Ordinal(end) := Own(color, kind)][Ordinal(start) := NoPiece][Ordinal(s)] == p[Ordinal(s)]
    {
      OrdinalInjective(s, start);
      OrdinalInjective(s, end);
    }
    p[Ordinal(end) := Own(color, kind)][Ordinal(start) := NoPiece]
  }

  /** The placement after a move, case by case as `performMove` switches on the moving piece. */
  function PlacementAfter(m: Move, p: Placement): Placement {
    if m.movingPiece == Pawn && m.isEnPassant then
      Switched(p, Some(Pawn), m.start, m.enPassantDestination, m.movingColor)[Ordinal(m.enPassantCapture) := NoPiece]
    else if m.movingPiece == Pawn && m.isPromotion then
      Switched(p, m.promotionPiece, m.start, m.end, m.movingColor)
    else if m.movingPiece == King && m.isCastle then
      var right := CastleRight(m);
      Switched(Switched(p, Some(Rook), right.RookSquare(), right.TargetRookSquare(), m.movingColor), Some(King), m.start, m.end, m.movingColor)
    else
      Switched(p, Some(m.movingPiece), m.start, m.end, m.movingColor)
  }

  /** The position `performMove` builds from a legal move. */
  function NextPosition(m: Move, board: Position): Position {
    Position(
      PlacementAfter(m, board.pieces),
      board.rights - RevokedRights(m),
      if IsDoublePush(m) then Some(m.start.file) else None,
      m.movingColor.Other(),
      Some(m))
  }

  /**
   * `performMove`: none for a move outside the legal moves; otherwise the
   * position the builder ends with, which is `NextPosition`.
   */
  method PerformMove(move: Move, board: Position, legalMoves: set<Move>) returns (r: Option<Position>)
    ensures r.None? <==> move !in legalMoves
    ensures r.Some? ==> r.value == NextPosition(move, board)
  {
    if move !in legalMoves {
      return None;
    }
    var builder := new PositionBuilder.FromPosition(board);
    builder.WithEnPassant(None);
    MovePieces(builder, move);
    if move.isCapture && move.capturedPiece == Some(Rook) {
      builder.RevokeRights(AffectedRights(move.movingColor.Other(), move.end));
    }
    builder.WithLastMove(move);
    builder.WithColorToMove(move.movingColor.Other());
    r := Some(builder.Build());
  }

  /** The switch of `performMove` on the moving piece: the squares it changes, the rights a king or rook gives up, and en passant after a double push. */
  method MovePieces(builder: PositionBuilder, move: Move)
    modifies builder
    ensures builder.Build() == old(builder.Build()).(
      pieces := PlacementAfter(move, old(builder.pieces)),
      rights := old(builder.rights) - MoverRevoked(move),
      enPassantFile := if IsDoublePush(move) then Some(move.start.file) else old(builder.enPassantFile))
  {
    var movingColor := move.movingColor;
    match move.movingPiece {
      case Pawn =>
        MovePawn(builder, move);
      case King =>
        if move.isCastle {
          var relevantRight := ByColorAndSide(movingColor, ByRelation(move.end));
          builder.SwitchSquares(Some(Rook), relevantRight.RookSquare(), relevantRight.TargetRookSquare(), movingColor);
        }
        builder.RevokeRights(AffectedRights(movingColor, move.start));
        builder.SwitchSquares(Some(move.movingPiece), move.start, move.end, movingColor);
      case Rook =>
        builder.RevokeRights(AffectedRights(movingColor, move.start));
        builder.SwitchSquares(Some(move.movingPiece), move.start, move.end, movingColor);
      case _ =>
        builder.SwitchSquares(Some(move.movingPiece), move.start, move.end, movingColor);
    }
  }

  /** The pawn branch of `performMove`: en passant, promotion, or a push that opens en passant after two ranks. */
  method MovePawn(builder: PositionBuilder, move: Move)
    requires move.movingPiece == Pawn
    modifies builder
    ensures builder.Build() == old(builder.Build()).(
      pieces := PlacementAfter(move, old(builder.pieces)),
      enPassantFile := if IsDoublePush(move) then Some(move.start.file) else old(builder.enPassantFile))
  {
    var movingColor := move.movingColor;
    if move.isEnPassant {
      builder.SwitchSquares(Some(Pawn), move.start, move.enPassantDestination, movingColor);
      builder.WithPieceAtSquare(NoPiece, move.enPassantCapture);
    } else if move.isPromotion {
      builder.SwitchSquares(move.promotionPiece, move.start, move.end, movingColor);
    } else {
      if Abs(move.start.rank - move.end.rank) == 2 {
        builder.WithEnPassant(Some(move.start.file));
      }
      builder.SwitchSquares(Some(move.movingPiece), move.start, move.end, movingColor);
    }
  }

  /** A move changes no square outside the ones it touches. */
  lemma UntouchedSquaresKept(m: Move, board: Position, s: Square)
    requires s !in TouchedSquares(m)
    ensures NextPosition(m, board).PieceAt(s) == board.PieceAt(s)
  {
    if m.movingPiece == Pawn && m.isEnPassant {
      OrdinalInjective(s, m.enPassantCapture);
    }
  }

  /** En passant: the captured pawn and the start square are emptied and the pawn lands on its destination. */
  lemma EnPassantPlacement(m: Move, board: Position)
    requires m.movingPiece == Pawn && m.isEnPassant
    ensures var next := NextPosition(m, board);
      && next.PieceAt(m.enPassantCapture) == NoPiece
      && next.PieceAt(m.start) == NoPiece
      && (m.enPassantDestination != m.start && m.enPassantDestination != m.enPassantCapture ==>
            next.PieceAt(m.enPassantDestination) == Own(m.movingColor, Some(Pawn)))
  {
    OrdinalInjective(m.start, m.enPassantCapture);
    OrdinalInjective(m.enPassantDestination, m.enPassantCapture);
  }

  /** Promotion: the start square is emptied and the promotion piece of the mover's colour stands on the end square. */
  lemma PromotionPlacement(m: Move, board: Position)
    requires m.movingPiece == Pawn && !m.isEnPassant && m.isPromotion
    ensures var next := NextPosition(m, board);
      && next.PieceAt(m.start) == NoPiece
      && (m.end != m.start ==> next.PieceAt(m.end) == Own(m.movingColor, m.promotionPiece))
  {
  }

  /** Castling: the king goes from its start to its end square and the rook of the side of the end square from its square to its target square. */
  lemma CastlePlacement(m: Move, board: Position)
    requires m.movingPiece == King && m.isCastle
    ensures var next := NextPosition(m, board);
      var right := CastleRight(m);
      && next.PieceAt(m.start) == NoPiece
      && (m.end != m.start ==> next.PieceAt(m.end) == Own(m.movingColor, Some(King)))
      && (right.RookSquare() !in {m.start, m.end} ==> next.PieceAt(right.RookSquare()) == NoPiece)
      && (right.TargetRookSquare() !in {m.start, m.end, right.RookSquare()} ==>
            next.PieceAt(right.TargetRookSquare()) == Own(m.movingColor, Some(Rook)))
  {
  }

  /** Every other move: the start square is emptied and the moving piece stands on the end square. */
  lemma OrdinaryPlacement(m: Move, board: Position)
    requires !(m.movingPiece == Pawn && (m.isEnPassant || m.isPromotion)) && !(m.movingPiece == King && m.isCastle)
    ensures var next := NextPosition(m, board);
      && next.PieceAt(m.start) == NoPiece
      && (m.end != m.start ==> next.PieceAt(m.end) == Own(m.movingColor, Some(m.movingPiece)))
  {
  }

  /** En passant opens exactly after a double pawn push, on the file of its start square. */
  lemma EnPassantOnlyAfterDoublePush(m: Move, board: Position)
    ensures NextPosition(m, board).enPassantFile.Some? <==> IsDoublePush(m)
    ensures IsDoublePush(m) ==> NextPosition(m, board).enPassantFile == Some(m.start.file)
  {
  }

  lemma OrdinalInjective(s: Square, t: Square)
    ensures Ordinal(s) == Ordinal(t) <==> s == t
  {
    OrdinalRoundTrip(s);
    OrdinalRoundTrip(t);
  }
}
