/**
 * `moves.ProcessedBoard` is an interface whose implementations are not part
 * of this model. The piece rules and the move generator only ask it
 * questions, so it is modelled as a value whose answers are given: the
 * colour to move, the castling rights, the en passant file, the pieces, the
 * squares giving check, the safe king destinations, pins, and whether the
 * path between two squares is blocked.
 */
module ProcessedBoards {
  import opened Wrappers
  import opened Squares
  import opened Directions
  import opened Colors
  import opened CastlingRights
  import opened Pieces
  import opened MoveMaking

  datatype ProcessedBoard = ProcessedBoard(
    whoseMove: Color,
    castlingAllowed: set<CastlingRight>,
    enPassantFile: Option<Coord>,
    pieceAt: Square -> Piece,
    squaresOf: Piece -> seq<Square>,
    attackers: seq<Square>,
    safeKingDestinations: seq<Square>,
    pinDirection: Square -> Option<Direction>,
    isEnPassantPinned: Coord -> bool,
    isMovementBlocked: (Square, Square) -> bool,
    legalMovesAt: Square -> seq<Move>)
  {
    /** `canCastle(right)`. */
    predicate CanCastle(right: CastlingRight) {
      right in castlingAllowed
    }

    predicate IsEmptySquare(s: Square) {
      pieceAt(s) == NoPiece
    }

    /** The square is empty or holds a piece of the colour not to move. */
    predicate IsNotSameColor(s: Square) {
      pieceAt(s).Color() != Some(whoseMove)
    }
  }
}
