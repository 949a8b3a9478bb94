/**
 * `gamePlaying.Color` and `CastlingRights` are not part of this model; these
 * are the standard chess facts the modelled code asks of them.
 */
module Colors {
  import opened Squares
  import opened Directions

  datatype Color = White | Black {
    predicate IsWhite() {
      this == White
    }

    function Other(): Color {
      if IsWhite() then Black else White
    }

    function PawnPushDirection(): Direction {
      if IsWhite() then Up else Down
    }

    function LeftPawnCaptureDirection(): Direction {
      if IsWhite() then UpLeft else DownLeft
    }

    function RightPawnCaptureDirection(): Direction {
      if IsWhite() then UpRight else DownRight
    }

    /** The rank pawns of this colour start on. */
    function PawnStartRank(): Coord {
      if IsWhite() then 1 else 6
    }

    /** The rank from which pawns of this colour capture en passant. */
    function EnPassantCaptureRank(): Coord {
      if IsWhite() then 4 else 3
    }

    /** The rank pawns of this colour land on when capturing en passant. */
    function EnPassantDestinationRank(): Coord {
      if IsWhite() then 5 else 2
    }

    function BackRank(): Coord {
      if IsWhite() then 0 else 7
    }

    /** The first character of the colour's name, used in the FEN side-to-move field. */
    function Letter(): char {
      if IsWhite() then 'w' else 'b'
    }
  }
}

module CastlingRights {
  import opened Squares
  import opened Colors
  import opened Sides

  const KingStartFile: Coord := 4

  datatype CastlingRight = WhiteKingside | WhiteQueenside | BlackKingside | BlackQueenside {
    function Ordinal(): int {
      match this
      case WhiteKingside => 0
      case WhiteQueenside => 1
      case BlackKingside => 2
      case BlackQueenside => 3
    }

    function Color(): Color {
      if this == WhiteKingside || this == WhiteQueenside then White else Black
    }

    function Side(): Side {
      if this == WhiteKingside || this == BlackKingside then Kingside else Queenside
    }

    function KingSquare(): Square {
      Square(KingStartFile, Color().BackRank())
    }

    function TargetKingSquare(): Square {
      Square(if Side().IsKingside() then 6 else 2, Color().BackRank())
    }

    function RookSquare(): Square {
      Square(Side().RookFile(), Color().BackRank())
    }

    function TargetRookSquare(): Square {
      Square(if Side().IsKingside() then 5 else 3, Color().BackRank())
    }

    /** The FEN letter of the right. */
    function Letter(): char {
      match this
      case WhiteKingside => 'K'
      case WhiteQueenside => 'Q'
      case BlackKingside => 'k'
      case BlackQueenside => 'q'
    }
  }

  /** `values()`, in declaration order. */
  const Values: seq<CastlingRight> := [WhiteKingside, WhiteQueenside, BlackKingside, BlackQueenside]

  function ByColorAndSide(c: Color, side: Side): (r: CastlingRight)
    ensures r.Color() == c && r.Side() == side
  {
    match (c, side)
    case (White, Kingside) => WhiteKingside
    case (White, Queenside) => WhiteQueenside
    case (Black, Kingside) => BlackKingside
    case (Black, Queenside) => BlackQueenside
  }

  /** The rights of colour `c` that a move from or to square `s` takes away: those whose king or rook starts there. */
  function AffectedRights(c: Color, s: Square): set<CastlingRight> {
    set r | r in Values && r.Color() == c && (r.KingSquare() == s || r.RookSquare() == s)
  }
}
