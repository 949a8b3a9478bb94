/** `pieces.PieceType`: the six kinds of chess piece, in ordinal order. */
module PieceTypes {
  import opened Wrappers

  datatype PieceType = Pawn | Knight | Bishop | Rook | Queen | King {
    function Ordinal(): int {
      match this
      case Pawn => 0
      case Knight => 1
      case Bishop => 2
      case Rook => 3
      case Queen => 4
      case King => 5
    }

    /** `isLongRange`: the ordinal is between BISHOP and QUEEN. */
    predicate IsLongRange() {
      2 <= Ordinal() <= 4
    }

    /** `isPromotionPiece`: the ordinal is between KNIGHT and QUEEN. */
    predicate IsPromotionPiece() {
      1 <= Ordinal() <= 4
    }

    /** `toString`: the plain English name. */
    function ReadableForm(): string {
      match this
      case Pawn => "pawn"
      case Knight => "knight"
      case Bishop => "bishop"
      case Rook => "rook"
      case Queen => "queen"
      case King => "king"
    }

    /** The letter of the piece in Standard Algebraic Notation (PGN Standard, section 8.2.3). */
    function Letter(): string {
      match this
      case Pawn => "P"
      case Knight => "N"
      case Bishop => "B"
      case Rook => "R"
      case Queen => "Q"
      case King => "K"
    }
  }

  const Values: seq<PieceType> := [Pawn, Knight, Bishop, Rook, Queen, King]

  /** The `promotionPieces` array. */
  const PromotionPieces: seq<PieceType> := [Knight, Bishop, Rook, Queen]

  /** The `lineMovers` array. */
  const LineMovers: seq<PieceType> := [Bishop, Rook, Queen]

  /** `getByIndex`: `values()[index]`, which throws outside 0..5. */
  function ByIndex(index: int): (r: Result<PieceType>)
    ensures r.Success? <==> 0 <= index < 6
    ensures r.Success? ==> r.value.Ordinal() == index
  {
    if 0 <= index < |Values| then Success(Values[index]) else Failure("index out of bounds")
  }

  lemma ByIndexOfOrdinal(t: PieceType)
    ensures ByIndex(t.Ordinal()) == Success(t)
  {
  }

  /** `getByLetter`: the upper-case piece letters; any other string throws. */
  function ByLetter(letter: string): (r: Result<PieceType>)
    ensures r.Success? <==> letter in {"P", "N", "B", "R", "Q", "K"}
    ensures r.Success? ==> r.value.Letter() == letter
  {
    if letter == "P" then Success(Pawn)
    else if letter == "N" then Success(Knight)
    else if letter == "B" then Success(Bishop)
    else if letter == "R" then Success(Rook)
    else if letter == "Q" then Success(Queen)
    else if letter == "K" then Success(King)
    else Failure("Input string does not correspond to a piece.")
  }

  /** Every piece type is read back from its own letter. */
  lemma LetterRoundTrip(t: PieceType)
    ensures ByLetter(t.Letter()) == Success(t)
  {
  }

  /** The long-range pieces are exactly the bishop, the rook and the queen. */
  lemma LongRangeExactly(t: PieceType)
    ensures t.IsLongRange() <==> t == Bishop || t == Rook || t == Queen
    ensures t.IsLongRange() <==> t in LineMovers
  {
  }

  /**
   * The promotion array lists exactly the promotion pieces, and the piece at
   * index i has ordinal i + 1 (which the move compression relies on).
   */
  lemma PromotionPiecesExactly(t: PieceType)
    ensures t.IsPromotionPiece() <==> t in PromotionPieces
    ensures t.IsPromotionPiece() ==> PromotionPieces[t.Ordinal() - 1] == t
    ensures forall i :: 0 <= i < |PromotionPieces| ==> PromotionPieces[i].Ordinal() == i + 1
  {
  }
}

/** `pieces.Piece`: an empty square or one of the twelve coloured pieces, in ordinal order. */
module Pieces {
  import opened Wrappers
  import opened Colors
  import opened PieceTypes

  datatype Piece =
    | NoPiece
    | WhitePawn | WhiteKnight | WhiteBishop | WhiteRook | WhiteQueen | WhiteKing
    | BlackPawn | BlackKnight | BlackBishop | BlackRook | BlackQueen | BlackKing
  {
    function Ordinal(): (r: int)
      ensures 0 <= r < 13
    {
      match this
      case NoPiece => 0
      case WhitePawn => 1
      case WhiteKnight => 2
      case WhiteBishop => 3
      case WhiteRook => 4
      case WhiteQueen => 5
      case WhiteKing => 6
      case BlackPawn => 7
      case BlackKnight => 8
      case BlackBishop => 9
      case BlackRook => 10
      case BlackQueen => 11
      case BlackKing => 12
    }

    /** The type the constructor derives: none for NONE, otherwise `(ordinal - 1) % 6`. */
    function Type(): Option<PieceType> {
      if Ordinal() == 0 then None else Some(PieceTypes.Values[(Ordinal() - 1) % 6])
    }

    /** The colour the constructor derives: none for NONE, otherwise white iff the ordinal is below 7. */
    function Color(): Option<Color> {
      if Ordinal() == 0 then None else Some(if Ordinal() < 7 then White else Black)
    }

    /** `getBitRepresentation`: the ordinal. */
    function Bits(): int {
      Ordinal()
    }
  }

  const Values: seq<Piece> := [NoPiece,
    WhitePawn, WhiteKnight, WhiteBishop, WhiteRook, WhiteQueen, WhiteKing,
    BlackPawn, BlackKnight, BlackBishop, BlackRook, BlackQueen, BlackKing]

  lemma ValuesByOrdinal(p: Piece)
    ensures Values[p.Ordinal()] == p
  {
  }

  /** The derived type and colour agree with each constant's name, and only NONE has neither. */
  lemma {:induction false} DerivationMatchesNames(p: Piece)
    ensures p.Type().None? <==> p == NoPiece
    ensures p.Color().None? <==> p == NoPiece
    ensures p.Type() == Some(Pawn) <==> p == WhitePawn || p == BlackPawn
    ensures p.Type() == Some(Knight) <==> p == WhiteKnight || p == BlackKnight
    ensures p.Type() == Some(Bishop) <==> p == WhiteBishop || p == BlackBishop
    ensures p.Type() == Some(Rook) <==> p == WhiteRook || p == BlackRook
    ensures p.Type() == Some(Queen) <==> p == WhiteQueen || p == BlackQueen
    ensures p.Type() == Some(King) <==> p == WhiteKing || p == BlackKing
    ensures p.Color() == Some(White) <==> p in {WhitePawn, WhiteKnight, WhiteBishop, WhiteRook, WhiteQueen, WhiteKing}
  {
    match p
    case NoPiece =>
    case WhitePawn =>
    case WhiteKnight =>
    case WhiteBishop =>
    case WhiteRook =>
    case WhiteQueen =>
    case WhiteKing =>
    case BlackPawn =>
    case BlackKnight =>
    case BlackBishop =>
    case BlackRook =>
    case BlackQueen =>
    case BlackKing =>
  }

  /** `getPieceByBits`: `values()[bits]`, throwing for bits of 13 or more (and, through the array, for negative bits). */
  function ByBits(bits: int): (r: Result<Piece>)
    ensures r.Success? <==> 0 <= bits < 13
    ensures r.Success? ==> r.value.Bits() == bits
  {
    if bits >= |Values| then Failure("The bit string cannot represent a piece because it is too high")
    else if bits < 0 then Failure("index out of bounds")
    else Success(Values[bits])
  }

  /** Reading a piece back from its bits gives the piece. */
  lemma BitsRoundTrip(p: Piece)
    ensures ByBits(p.Bits()) == Success(p)
  {
    ValuesByOrdinal(p);
  }

  /**
   * `getByColorAndType` as written: the conditional binds looser than `+`, so
   * the index is `isWhite ? 1 : (7 + ordinal)` and every white piece comes
   * back as WHITE_PAWN.
   */
  function ByColorAndTypeAsWritten(color: Option<Color>, kind: Option<PieceType>): (r: Piece)
    ensures color.None? || kind.None? ==> r == NoPiece
    ensures color == Some(White) && kind.Some? ==> r == WhitePawn
  {
    if color.None? || kind.None? then NoPiece
    else Values[if color.value.IsWhite() then 1 else 7 + kind.value.Ordinal()]
  }

  /** A white knight looked up as written is a white pawn. */
  lemma ByColorAndTypeAsWrittenLosesType()
    ensures ByColorAndTypeAsWritten(Some(White), Some(Knight)).Type() == Some(Pawn)
  {
  }

  /** `getByColorAndType` as evidently intended: the base index 1 or 7, plus the type's ordinal. */
  function ByColorAndType(color: Option<Color>, kind: Option<PieceType>): (r: Piece)
    ensures color.None? || kind.None? ==> r == NoPiece
    ensures color.Some? && kind.Some? ==> r.Color() == color && r.Type() == kind
  {
    if color.None? || kind.None? then NoPiece
    else Values[(if color.value.IsWhite() then 1 else 7) + kind.value.Ordinal()]
  }

  /** Every piece is found again from its own colour and type. */
  lemma ByColorAndTypeInverse(p: Piece)
    ensures ByColorAndType(p.Color(), p.Type()) == p
  {
    DerivationMatchesNames(p);
    ValuesByOrdinal(p);
  }

  /**
   * The checks `getLegalMoves` makes before delegating to the piece type: the
   * piece must stand on the square and have the colour to move; NONE has no
   * colour, so it already fails the colour check.
   */
  function LegalMovesGuard(p: Piece, isPieceAtSquare: bool, whoseMove: Color): (r: Outcome)
    ensures r.Pass? <==> isPieceAtSquare && p.Color() == Some(whoseMove)
    ensures r.Pass? ==> p != NoPiece
  {
    if !isPieceAtSquare then Fail("Can't get legal moves for a different piece than what is on the provided square")
    else if Some(whoseMove) != p.Color() then Fail("Can't calculate legal moves for a piece of the wrong color")
    else if p == NoPiece then Fail("Can't calculate legal moves for an empty square")
    else Pass
  }
}
