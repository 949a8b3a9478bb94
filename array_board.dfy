/**
 * `immutableArrayBoard.ImmutableArrayBoard`: a position as nine `int`s. Words
 * 0-7 are the files; within a file, the four bits from `rank * 4` up hold the
 * bit representation of the piece on that square. Word 8 holds the rights:
 * bits 0-3 the four castling rights by ordinal, bits 4-6 the en passant file
 * and bit 7 whether en passant is possible, and bit 8 set when white is to move.
 */
module ArrayBoards {
  import opened Wrappers
  import opened Words
  import opened Squares
  import opened Colors
  import opened CastlingRights
  import opened Pieces

  const FirstCastlingRightBit: nat := 0
  const RightsIndex: nat := 8
  const ArraySize: nat := 9
  const EnPassantIndex: nat := 4
  const BitsPerPiece: nat := 4

  const ColorMask: Word := FromInt(0x100)
  const EnPassantPermissionMask: Word := FromInt(0x8)
  const NibbleMask: Word := FromInt(0xF)
  const FileMask: Word := FromInt(0x7)
  /** The literal `~0b11110000` that `withEnPassant(null)` passes as its mask. */
  const EnPassantClearMask: Word := Not(FromInt(0xF0))

  lemma ColorMaskBits()
    ensures forall i :: 0 <= i < Width ==> (ColorMask[i] <==> i == 8)
  {
    assert Pow2(8) == 0x100;
    SingleBitWord(8, 0x100);
  }

  lemma SmallMaskBits()
    ensures forall i :: 0 <= i < Width ==> (EnPassantPermissionMask[i] <==> i == 3)
    ensures forall i :: 0 <= i < Width ==> (NibbleMask[i] <==> i < 4)
    ensures forall i :: 0 <= i < Width ==> (FileMask[i] <==> i < 3)
    ensures forall i :: 0 <= i < Width ==> (EnPassantClearMask[i] <==> !(4 <= i < 8))
  {
    SmallPowers();
    SingleBitWord(3, 8);
    LowMaskWord(15, 4);
    LowMaskWord(7, 3);
    assert Pow2(Width - 1) > 0xF0 by {
      ModulusIsPow2();
    }
    ScaledWord(15, 4, 0xF0);
  }

  /** The four bits of a square's nibble in the word of its file, lowest first. */
  function NibbleBits(fileWord: Word, rank: Coord): (r: seq<bool>)
    ensures |r| == BitsPerPiece
    ensures forall j :: 0 <= j < BitsPerPiece ==> r[j] == fileWord[BitsPerPiece * rank + j]
  {
    fileWord[BitsPerPiece * rank .. BitsPerPiece * rank + BitsPerPiece]
  }

  /** `getBitsAtSquare` on the word of the square's file: the nibble at `rank * 4`, as a number. */
  function Nibble(fileWord: Word, rank: Coord): (r: nat)
    ensures r < 16
  {
    NibbleValue(fileWord, rank);
    ToNat(And(ShiftRight(fileWord, rank * BitsPerPiece), NibbleMask))
  }

  /** The masked, shifted word is the number the nibble's four bits stand for. */
  lemma NibbleValue(fileWord: Word, rank: Coord)
    ensures ToNat(And(ShiftRight(fileWord, rank * BitsPerPiece), NibbleMask)) == ToNat(NibbleBits(fileWord, rank)) < 16
  {
    var v := And(ShiftRight(fileWord, rank * BitsPerPiece), NibbleMask);
    MaskedNibbleBits(fileWord, rank);
    ToNatLow(v, 4);
    SmallPowers();
    ToNatBelow(v[..4], 4);
  }

  /** Shifted down and masked, a file word keeps only the four bits of the rank's nibble. */
  lemma MaskedNibbleBits(fileWord: Word, rank: Coord)
    ensures var v := And(ShiftRight(fileWord, rank * BitsPerPiece), NibbleMask);
      (forall i :: 4 <= i < Width ==> !v[i]) && v[..4] == NibbleBits(fileWord, rank)
  {
    SmallMaskBits();
    var v := And(ShiftRight(fileWord, rank * BitsPerPiece), NibbleMask);
    assert forall j :: 0 <= j < 4 ==> v[..4][j] == NibbleBits(fileWord, rank)[j];
  }

  /** `bits << (rank * 4)`: the nibble of a square holding `bits`. */
  function PlacedNibble(bits: int, rank: Coord): Word {
    ShiftLeft(FromInt(bits), rank * BitsPerPiece)
  }

  /** A nibble reads as zero exactly when none of its bits is set. */
  lemma NibbleZero(fileWord: Word, rank: Coord)
    ensures Nibble(fileWord, rank) == 0 <==> forall j :: 0 <= j < BitsPerPiece ==> !NibbleBits(fileWord, rank)[j]
  {
    var slice := NibbleBits(fileWord, rank);
    NibbleValue(fileWord, rank);
    if Nibble(fileWord, rank) == 0 {
      ZeroMeansClear(slice);
    } else if forall j :: 0 <= j < BitsPerPiece ==> !slice[j] {
      AllClearIsZero(slice);
    }
  }

  /** A number below 16, placed at a rank, occupies exactly that rank's nibble. */
  lemma PlacedNibbleBits(bits: nat, rank: Coord)
    requires bits < 16
    ensures forall other: Coord :: other != rank ==> forall j :: 0 <= j < BitsPerPiece ==> !NibbleBits(PlacedNibble(bits, rank), other)[j]
    ensures NibbleBits(PlacedNibble(bits, rank), rank) == FromInt(bits)[..BitsPerPiece]
    ensures ToNat(FromInt(bits)[..BitsPerPiece]) == bits
  {
    SmallPowers();
    SmallInt(bits, 4);
    ToNatLow(FromInt(bits), 4);
    var placed := PlacedNibble(bits, rank);
    forall other: Coord, j | other != rank && 0 <= j < BitsPerPiece
      ensures !NibbleBits(placed, other)[j]
    {
      var i := BitsPerPiece * other + j;
      if BitsPerPiece * rank <= i {
        assert i - BitsPerPiece * rank >= 4 by {
          assert other > rank;
        }
      }
    }
  }

  /** Words with the same four bits at a rank hold the same nibble there. */
  lemma SameBitsSameNibble(a: Word, b: Word, rank: Coord)
    requires NibbleBits(a, rank) == NibbleBits(b, rank)
    ensures Nibble(a, rank) == Nibble(b, rank)
  {
    NibbleValue(a, rank);
    NibbleValue(b, rank);
  }

  /** ORing a placed nibble into a file word changes no other rank. */
  lemma OrNibbleOther(w: Word, bits: nat, rank: Coord, other: Coord)
    requires bits < 16 && other != rank
    ensures Nibble(Or(w, PlacedNibble(bits, rank)), other) == Nibble(w, other)
  {
    var after := Or(w, PlacedNibble(bits, rank));
    PlacedNibbleBits(bits, rank);
    var placedBits := NibbleBits(PlacedNibble(bits, rank), other);
    assert forall j :: 0 <= j < BitsPerPiece ==> NibbleBits(after, other)[j] == (NibbleBits(w, other)[j] || placedBits[j]);
    assert NibbleBits(after, other) == NibbleBits(w, other);
    SameBitsSameNibble(after, w, other);
  }

  /** ORing a placed nibble into an empty nibble leaves the number there. */
  lemma OrNibbleSame(w: Word, bits: nat, rank: Coord)
    requires bits < 16 && Nibble(w, rank) == 0
    ensures Nibble(Or(w, PlacedNibble(bits, rank)), rank) == bits
  {
    var after := Or(w, PlacedNibble(bits, rank));
    PlacedNibbleBits(bits, rank);
    NibbleZero(w, rank);
    var placedBits := NibbleBits(PlacedNibble(bits, rank), rank);
    assert forall j :: 0 <= j < BitsPerPiece ==> NibbleBits(after, rank)[j] == (NibbleBits(w, rank)[j] || placedBits[j]);
    assert NibbleBits(after, rank) == FromInt(bits)[..BitsPerPiece];
    NibbleValue(after, rank);
  }

  /** Clearing a rank's nibble and ORing a number below 16 into it leaves that number there and every other rank as it was. */
  lemma ReplaceNibble(w: Word, bits: nat, rank: Coord)
    requires bits < 16
    ensures Nibble(Or(And(w, Not(PlacedNibble(0xF, rank))), PlacedNibble(bits, rank)), rank) == bits
    ensures forall other: Coord :: other != rank ==>
      Nibble(Or(And(w, Not(PlacedNibble(0xF, rank))), PlacedNibble(bits, rank)), other) == Nibble(w, other)
  {
    var cleared := And(w, Not(PlacedNibble(0xF, rank)));
    forall other: Coord | other != rank
      ensures Nibble(Or(cleared, PlacedNibble(bits, rank)), other) == Nibble(w, other)
    {
      ClearNibble(w, rank, other);
      OrNibbleOther(cleared, bits, rank, other);
    }
    ClearNibble(w, rank, rank);
    OrNibbleSame(cleared, bits, rank);
  }

  /** Clearing a rank's nibble changes no other rank and empties that one. */
  lemma ClearNibble(w: Word, rank: Coord, other: Coord)
    ensures Nibble(And(w, Not(PlacedNibble(0xF, rank))), rank) == 0
    ensures other != rank ==> Nibble(And(w, Not(PlacedNibble(0xF, rank))), other) == Nibble(w, other)
  {
    var cleared := And(w, Not(PlacedNibble(0xF, rank)));
    PlacedNibbleBits(0xF, rank);
    SmallMaskBits();
    assert forall j :: 0 <= j < BitsPerPiece ==> FromInt(0xF)[..BitsPerPiece][j];
    NibbleZero(cleared, rank);
    if other != rank {
      var placedBits := NibbleBits(PlacedNibble(0xF, rank), other);
      assert forall j :: 0 <= j < BitsPerPiece ==> NibbleBits(cleared, other)[j] == (NibbleBits(w, other)[j] && !placedBits[j]);
      assert NibbleBits(cleared, other) == NibbleBits(w, other);
      SameBitsSameNibble(cleared, w, other);
    }
  }

  /** A word ANDed with a single-bit mask is non-zero exactly when the word has that bit. */
  lemma SingleBitTest(w: Word, mask: Word, k: nat)
    requires k < Width
    requires forall i :: 0 <= i < Width ==> (mask[i] <==> i == k)
    ensures And(w, mask) != FromInt(0) <==> w[k]
  {
    ZeroWord();
    if !w[k] {
      assert And(w, mask) == FromInt(0);
    } else {
      assert And(w, mask)[k] != FromInt(0)[k];
    }
  }

  /** `w >>> k == 1` exactly when bit k is the highest bit set in w. */
  lemma ShiftedIsOne(w: Word, k: nat)
    requires k < Width
    ensures ShiftRight(w, k) == FromInt(1) <==> w[k] && forall i :: k < i < Width ==> !w[i]
  {
    var shifted := ShiftRight(w, k);
    SmallPowers();
    LowMaskWord(1, 1);
    if w[k] && forall i :: k < i < Width ==> !w[i] {
      assert shifted == FromInt(1);
    } else if !w[k] {
      assert shifted[0] != FromInt(1)[0];
    } else {
      var i :| k < i < Width && w[i];
      assert shifted[i - k] != FromInt(1)[i - k];
    }
  }

  type BoardWords = s: seq<Word> | |s| == ArraySize witness seq(ArraySize, _ => FromInt(0))

  /** The board the builder hands out; its getters only read the words. */
  datatype ArrayBoard = ArrayBoard(board: BoardWords) {
    /** `getBitsAtSquare`: the nibble of the square in the word of its file. */
    function BitsAtSquare(s: Square): (r: nat)
      ensures r < 16
      ensures r == ToNat(board[s.file][BitsPerPiece * s.rank .. BitsPerPiece * s.rank + BitsPerPiece])
    {
      NibbleValue(board[s.file], s.rank);
      Nibble(board[s.file], s.rank)
    }

    /** `getPieceAtSquare`: the piece with those bits; 13, 14 and 15 throw. */
    function PieceAtSquare(s: Square): (r: Result<Piece>)
      ensures r.Success? <==> BitsAtSquare(s) < 13
      ensures r.Success? ==> r.value.Bits() == BitsAtSquare(s)
    {
      ByBits(BitsAtSquare(s))
    }

    /** `whoseMove`: white exactly when bit 8 of the rights word is set. */
    function WhoseMove(): (r: Color)
      ensures r == White <==> board[RightsIndex][8]
    {
      ColorMaskBits();
      SingleBitTest(board[RightsIndex], ColorMask, 8);
      var masked := And(board[RightsIndex], ColorMask);
      if masked != FromInt(0) then White else Black
    }

    /**
     * `canCastle` as written: `>>>` binds looser than `%`, so the word is
     * shifted by `ordinal % 2` and compared with 1 as a whole. The result holds
     * only when bit `ordinal % 2` is the highest bit set in the rights word.
     */
    function CanCastleAsWritten(right: CastlingRight): (r: bool)
      ensures r <==> board[RightsIndex][right.Ordinal() % 2] && forall i :: right.Ordinal() % 2 < i < Width ==> !board[RightsIndex][i]
    {
      var k := (FirstCastlingRightBit + right.Ordinal()) % 2;
      var shifted := ShiftRight(board[RightsIndex], k);
      ShiftedIsOne(board[RightsIndex], k);
      shifted == FromInt(1)
    }

    /** `canCastle` as evidently intended, `(rights >>> ordinal) % 2 == 1`: bit `ordinal` of the rights word. */
    function CanCastle(right: CastlingRight): (r: bool)
      ensures r == board[RightsIndex][FirstCastlingRightBit + right.Ordinal()]
    {
      var shifted := ShiftRight(board[RightsIndex], FirstCastlingRightBit + right.Ordinal());
      ToNat(shifted) % 2 == 1
    }

    /** `enPassantCaptureFile`: none unless bit 7 is set, otherwise the file in bits 4-6. */
    function EnPassantCaptureFile(): (r: Option<Coord>)
      ensures r.Some? <==> board[RightsIndex][7]
      ensures r.Some? ==> r.value == ToNat(board[RightsIndex][4..7])
    {
      SmallMaskBits();
      SmallPowers();
      var relevantInfo := ShiftRight(board[RightsIndex], EnPassantIndex);
      var permission := And(relevantInfo, EnPassantPermissionMask);
      SingleBitTest(relevantInfo, EnPassantPermissionMask, 3);
      var file := And(relevantInfo, FileMask);
      ToNatLow(file, 3);
      assert file[..3] == board[RightsIndex][4..7];
      ToNatBelow(file[..3], 3);
      if permission != FromInt(0) then Some(ToNat(file)) else None
    }
  }

  /** The castling right that `canCastle` as written consults for the black rights is a white one's bit. */
  lemma CanCastleAsWrittenMisreads(b: ArrayBoard)
    requires b.board[RightsIndex] == FromInt(0x104)
    ensures b.CanCastle(BlackKingside) && !b.CanCastleAsWritten(BlackKingside) && b.WhoseMove() == White
  {
    var rights := FromInt(0x104);
    assert Pow2(8) == 0x100;
    assert 0x104 == 0x41 * Pow2(2);
    assert Pow2(Width - 1) > 0x104 by {
      ModulusIsPow2();
    }
    ScaledWord(0x41, 2, 0x104);
    assert 0x41 == 1 + 0x40;
    assert 0x40 == Pow2(6) by {
      SmallPowers();
    }
    SmallInt(0x41, 7);
    assert FromInt(0x41) == Bits(0x41, Width);
    BitsPrefix(0x41, 7, Width);
    assert Bits(0x41, 7) == [true, false, false, false, false, false, true];
    assert rights[2] && !rights[0] && rights[8];
  }

  /** `ImmutableArrayBoard.Builder`: the nine words, changed in place by the setters. */
  class ArrayBoardBuilder {
    var board: array<Word>

    predicate Valid()
      reads this
    {
      board.Length == ArraySize
    }

    /** `build`: a board with the builder's words. */
    function Build(): ArrayBoard
      requires Valid()
      reads this, board
    {
      ArrayBoard(board[..])
    }

    /** `Builder(int[])`: a clone of the given words; the given array is not touched. */
    constructor FromWords(words: array<Word>)
      requires words.Length == ArraySize
      ensures Valid() && fresh(board)
      ensures board[..] == words[..]
    {
      var contents := words[..];
      board := new Word[ArraySize](i requires 0 <= i < ArraySize => contents[i]);
    }

    /** `Builder(ImmutableArrayBoard)`: a fresh copy of another board's words. */
    constructor FromBoard(other: ArrayBoard)
      ensures Valid() && fresh(board)
      ensures Build() == other
    {
      var contents := other.board;
      board := new Word[ArraySize](i requires 0 <= i < ArraySize => contents[i]);
    }

    /**
     * `Builder(Piece[], Color)` as evidently intended: from an empty board,
     * the piece of each square is placed, in square order, by the loop of
     * `BoardBuilder(Piece[], Color)`, and the colour to move is set; no
     * castling right and no en passant file. As written the constructor
     * always throws (`FromPiecesAsWritten`).
     */
    constructor FromPieces(pieces: seq<Piece>, whoToMove: Color)
      requires |pieces| >= 64
      ensures Valid() && fresh(board)
      ensures forall s: Square :: Build().PieceAtSquare(s) == Success(pieces[Ordinal(s)])
      ensures Build().WhoseMove() == whoToMove
      ensures forall right: CastlingRight :: !Build().CanCastle(right)
      ensures Build().EnPassantCaptureFile() == None
    {
      board := new Word[ArraySize](_ => FromInt(0));
      new;
      PlacePieces(pieces);
      ghost var placed := board[..];
      WithColorToMove(whoToMove);
      ZeroWord();
      PiecesReadBack(Build(), pieces);
    }

    /** The loop of `BoardBuilder(Piece[], Color)`: each square's piece placed, in square order, on an empty board. */
    method PlacePieces(pieces: seq<Piece>)
      requires Valid() && |pieces| >= 64
      requires forall f :: 0 <= f < ArraySize ==> board[f] == FromInt(0)
      modifies board
      ensures Valid()
      ensures forall s: Square :: Nibble(board[s.file], s.rank) == pieces[Ordinal(s)].Bits()
      ensures board[RightsIndex] == FromInt(0)
    {
      EmptyNibbles();
      for k := 0 to 64
        invariant board[RightsIndex] == FromInt(0)
        invariant forall s: Square :: Ordinal(s) < k ==> Nibble(board[s.file], s.rank) == pieces[Ordinal(s)].Bits()
        invariant forall s: Square :: Ordinal(s) >= k ==> Nibble(board[s.file], s.rank) == 0
      {
        var square := ByOrdinal(k);
        WithPieceAtSquareAsWritten(pieces[k], square);
        forall s: Square | Ordinal(s) == k
          ensures s == square
        {
          OrdinalRoundTrip(s);
        }
      }
    }

    /** `setRightsByBitMask`: the rights word ORed with the mask, or ANDed with its complement. */
    method SetRightsByBitMask(mask: Word, orBoolean: bool)
      requires Valid()
      modifies board
      ensures board[RightsIndex] == (if orBoolean then Or(old(board[RightsIndex]), mask) else And(old(board[RightsIndex]), Not(mask)))
      ensures forall f :: 0 <= f < RightsIndex ==> board[f] == old(board[f])
    {
      board[RightsIndex] := if orBoolean then Or(board[RightsIndex], mask) else And(board[RightsIndex], Not(mask));
    }

    /** `setPieceAtSquare`: the bits, shifted to the square's nibble, ORed into the word of its file. */
    method SetPieceAtSquare(pieceBits: int, square: Square)
      requires Valid()
      modifies board
      ensures board[square.file] == Or(old(board[square.file]), PlacedNibble(pieceBits, square.rank))
      ensures forall f :: 0 <= f < ArraySize && f != square.file ==> board[f] == old(board[f])
    {
      var fileIndex := square.file;
      board[fileIndex] := Or(board[fileIndex], PlacedNibble(pieceBits, square.rank));
    }

    /**
     * `withPieceAtSquare` as written: the piece's bits are ORed over what the
     * square held, so the square reads back as the piece only when it was empty.
     */
    method WithPieceAtSquareAsWritten(piece: Piece, square: Square)
      requires Valid()
      modifies board
      ensures Valid()
      ensures board[square.file] == Or(old(board[square.file]), PlacedNibble(piece.Bits(), square.rank))
      ensures old(Nibble(board[square.file], square.rank)) == 0 ==> Nibble(board[square.file], square.rank) == piece.Bits()
      ensures forall s: Square :: s != square ==> Nibble(board[s.file], s.rank) == old(Nibble(board[s.file], s.rank))
      ensures board[RightsIndex] == old(board[RightsIndex])
    {
      ghost var before := board[square.file];
      SetPieceAtSquare(piece.Bits(), square);
      PlacedNibbleBits(piece.Bits(), square.rank);
      forall s: Square | s != square && s.file == square.file
        ensures Nibble(board[s.file], s.rank) == old(Nibble(board[s.file], s.rank))
      {
        OrNibbleOther(before, piece.Bits(), square.rank, s.rank);
      }
      if Nibble(before, square.rank) == 0 {
        OrNibbleSame(before, piece.Bits(), square.rank);
      }
    }

    /** `withPieceAtSquare` as evidently intended: the square's nibble is cleared before the piece's bits go in. */
    method WithPieceAtSquare(piece: Piece, square: Square)
      requires Valid()
      modifies board
      ensures Valid()
      ensures Build().PieceAtSquare(square) == Success(piece)
      ensures forall s: Square :: s != square ==> Build().BitsAtSquare(s) == old(Build().BitsAtSquare(s))
      ensures board[RightsIndex] == old(board[RightsIndex])
    {
      ghost var before := board[square.file];
      var fileIndex := square.file;
      board[fileIndex] := And(board[fileIndex], Not(PlacedNibble(0xF, square.rank)));
      SetPieceAtSquare(piece.Bits(), square);
      ReplaceNibble(before, piece.Bits(), square.rank);
      BitsRoundTrip(piece);
    }

    /** `withColorToMove`: bit 8 set for white and cleared for black; nothing else changes. */
    method WithColorToMove(color: Color)
      requires Valid()
      modifies board
      ensures Valid()
      ensures Build().WhoseMove() == color
      ensures forall i :: 0 <= i < Width && i != 8 ==> board[RightsIndex][i] == old(board[RightsIndex][i])
      ensures forall f :: 0 <= f < RightsIndex ==> board[f] == old(board[f])
    {
      ColorMaskBits();
      SetRightsByBitMask(ColorMask, color.IsWhite());
    }

    /** `withCastlingRight`: bit `ordinal` set or cleared; nothing else changes. */
    method WithCastlingRight(right: CastlingRight, enabled: bool)
      requires Valid()
      modifies board
      ensures Valid()
      ensures Build().CanCastle(right) == enabled
      ensures forall i :: 0 <= i < Width && i != right.Ordinal() ==> board[RightsIndex][i] == old(board[RightsIndex][i])
      ensures forall f :: 0 <= f < RightsIndex ==> board[f] == old(board[f])
    {
      LowMaskWord(1, 1);
      var mask := ShiftLeft(FromInt(1), right.Ordinal() + FirstCastlingRightBit);
      SetRightsByBitMask(mask, enabled);
    }

    /**
     * `withEnPassant` as written. For a file, `(index | 0b1000) << 4` is ORed
     * in without clearing the file already there. For none, the mask
     * `~0b11110000` is complemented and ANDed, which keeps bits 4-7 and
     * clears everything else: the colour to move and the castling rights.
     */
    method WithEnPassantAsWritten(file: Option<Coord>)
      requires Valid()
      modifies board
      ensures Valid()
      ensures file.None? ==> forall i :: 0 <= i < Width ==> board[RightsIndex][i] == (4 <= i < 8 && old(board[RightsIndex][i]))
      ensures file.Some? ==> forall i :: 0 <= i < Width ==> board[RightsIndex][i] == (old(board[RightsIndex][i]) || i == 7 || (4 <= i < 7 && FromInt(file.value)[i - 4]))
      ensures forall f :: 0 <= f < RightsIndex ==> board[f] == old(board[f])
    {
      SmallMaskBits();
      if file.Some? {
        SmallPowers();
        SmallInt(file.value, 3);
        var mask := ShiftLeft(Or(FromInt(file.value), EnPassantPermissionMask), EnPassantIndex);
        SetRightsByBitMask(mask, true);
      } else {
        SetRightsByBitMask(EnPassantClearMask, false);
      }
    }

    /** `withEnPassant` as evidently intended: bits 4-7 are replaced by the file and its permission bit, or cleared. */
    method WithEnPassant(file: Option<Coord>)
      requires Valid()
      modifies board
      ensures Valid()
      ensures Build().EnPassantCaptureFile() == file
      ensures forall i :: 0 <= i < Width && !(4 <= i < 8) ==> board[RightsIndex][i] == old(board[RightsIndex][i])
      ensures forall f :: 0 <= f < RightsIndex ==> board[f] == old(board[f])
    {
      ghost var before := board[RightsIndex];
      board[RightsIndex] := And(board[RightsIndex], EnPassantClearMask);
      if file.Some? {
        var mask := ShiftLeft(Or(FromInt(file.value), EnPassantPermissionMask), EnPassantIndex);
        SetRightsByBitMask(mask, true);
        EnPassantWordSet(before, file.value);
      } else {
        EnPassantWordCleared(before);
      }
    }
  }

  /** Every nibble of the word of 0 reads as 0. */
  lemma EmptyNibbles()
    ensures forall rank: Coord :: Nibble(FromInt(0), rank) == 0
  {
    ZeroWord();
    forall rank: Coord ensures Nibble(FromInt(0), rank) == 0 {
      NibbleZero(FromInt(0), rank);
    }
  }

  /**
   * `setPieceAtSquare` on the builder's `board` field, which is `None` while
   * it is still null: reading `board[fileIndex]` then throws.
   */
  function SetPieceAtSquareOn(board: Option<seq<Word>>, pieceBits: int, square: Square): (r: Result<seq<Word>>)
    requires board.Some? ==> |board.value| == ArraySize
    ensures r.Failure? <==> board.None?
    ensures r.Success? ==> |r.value| == ArraySize
    ensures r.Success? ==> r.value[square.file] == Or(board.value[square.file], PlacedNibble(pieceBits, square.rank))
    ensures r.Success? ==> forall f :: 0 <= f < ArraySize && f != square.file ==> r.value[f] == board.value[f]
  {
    if board.None? then Failure("NullPointerException")
    else Success(board.value[square.file := Or(board.value[square.file], PlacedNibble(pieceBits, square.rank))])
  }

  /**
   * `Builder(Piece[], Color)` as written. `super(pieces, whoToMove)` runs
   * the placement loop of `BoardBuilder` before the field initialiser
   * `board = new int[ARRAY_SIZE]`, which Java runs only once the superclass
   * constructor has returned; so the first `withPieceAtSquare` finds
   * `board` null and the constructor throws for every input.
   */
  method FromPiecesAsWritten(pieces: seq<Piece>, whoToMove: Color) returns (r: Result<ArrayBoard>)
    requires |pieces| >= 64
    ensures r == Failure("NullPointerException")
  {
    var board: Option<seq<Word>> := None;
    for k := 0 to 64
      invariant board.Some? ==> |board.value| == ArraySize
    {
      var placed := SetPieceAtSquareOn(board, pieces[k].Bits(), ByOrdinal(k));
      match placed {
        case Failure(e) => return Failure(e);
        case Success(words) => board := Some(words);
      }
    }
    // `withColorToMove` reads the rights word of the same null array.
    return Failure("NullPointerException");
  }

  /** Every square holding the bits of its piece reads back as that piece. */
  lemma PiecesReadBack(b: ArrayBoard, pieces: seq<Piece>)
    requires |pieces| >= 64
    requires forall s: Square :: b.BitsAtSquare(s) == pieces[Ordinal(s)].Bits()
    ensures forall s: Square :: b.PieceAtSquare(s) == Success(pieces[Ordinal(s)])
  {
    forall s: Square ensures b.PieceAtSquare(s) == Success(pieces[Ordinal(s)]) {
      BitsRoundTrip(pieces[Ordinal(s)]);
    }
  }

  /** Clearing bits 4-7 changes nothing else and leaves no en passant file. */
  lemma EnPassantWordCleared(w: Word)
    ensures !And(w, EnPassantClearMask)[7]
    ensures forall i :: 0 <= i < Width && !(4 <= i < 8) ==> And(w, EnPassantClearMask)[i] == w[i]
  {
    SmallMaskBits();
  }

  /** Clearing bits 4-7 and ORing in the file with its permission bit records exactly that file. */
  lemma EnPassantWordSet(w: Word, file: Coord)
    ensures var after := Or(And(w, EnPassantClearMask), ShiftLeft(Or(FromInt(file), EnPassantPermissionMask), EnPassantIndex));
      && after[7] && ToNat(after[4..7]) == file
      && forall i :: 0 <= i < Width && !(4 <= i < 8) ==> after[i] == w[i]
  {
    SmallMaskBits();
    SmallPowers();
    SmallInt(file, 3);
    ToNatLow(FromInt(file), 3);
    var after := Or(And(w, EnPassantClearMask), ShiftLeft(Or(FromInt(file), EnPassantPermissionMask), EnPassantIndex));
    assert after[4..7] == FromInt(file)[..3];
  }

  /** As written, putting a piece on an occupied square mixes the bits: a knight placed over a pawn reads back as a bishop. */
  method OverwriteAsWrittenMixesPieces() returns (r: Result<Piece>)
    ensures r == Success(WhiteBishop)
  {
    var words := new Word[ArraySize](_ => FromInt(0));
    var b := new ArrayBoardBuilder.FromWords(words);
    EmptyNibbles();
    var a1 := Square(0, 0);
    b.WithPieceAtSquareAsWritten(WhitePawn, a1);
    ghost var pawnWord := b.board[0];
    b.WithPieceAtSquareAsWritten(WhiteKnight, a1);
    KnightOverPawn(pawnWord, 0);
    BitsRoundTrip(WhiteBishop);
    r := b.Build().PieceAtSquare(a1);
  }

  /** The bits of a knight (2) ORed over those of a pawn (1) are the bits of a bishop (3). */
  lemma KnightOverPawn(w: Word, rank: Coord)
    requires Nibble(w, rank) == 1
    ensures Nibble(Or(w, PlacedNibble(2, rank)), rank) == 3
  {
    var after := Or(w, PlacedNibble(2, rank));
    PawnNibbleBits(w, rank);
    KnightNibbleBits(rank);
    var placedBits := NibbleBits(PlacedNibble(2, rank), rank);
    assert forall j :: 0 <= j < BitsPerPiece ==> NibbleBits(after, rank)[j] == (NibbleBits(w, rank)[j] || placedBits[j]);
    assert NibbleBits(after, rank) == [true, true, false, false];
    BishopBitsValue();
    NibbleValue(after, rank);
  }

  /** The nibble of a pawn (1) has only its lowest bit set. */
  lemma PawnNibbleBits(w: Word, rank: Coord)
    requires Nibble(w, rank) == 1
    ensures NibbleBits(w, rank) == [true, false, false, false]
  {
    NibbleValue(w, rank);
    BitsOfToNat(NibbleBits(w, rank));
    BitsOfOne();
  }

  lemma BitsOfOne()
    ensures Bits(1, 4) == [true, false, false, false]
  {
    assert Bits(0, 1) == [false];
    assert Bits(0, 2) == [false, false];
    assert Bits(0, 3) == [false, false, false];
  }

  /** The nibble of a knight (2) placed at a rank has only its second bit set. */
  lemma KnightNibbleBits(rank: Coord)
    ensures NibbleBits(PlacedNibble(2, rank), rank) == [false, true, false, false]
  {
    PlacedNibbleBits(2, rank);
    SmallPowers();
    SmallInt(2, 4);
    BitsPrefix(2, 4, Width);
    assert Bits(0, 1) == [false];
    assert Bits(0, 2) == [false, false];
    assert Bits(1, 3) == [true, false, false];
  }

  /** The two lowest bits stand for 3, the bits of a bishop. */
  lemma BishopBitsValue()
    ensures ToNat([true, true, false, false]) == 3
  {
    assert [false, false][1..] == [false];
    assert [false][1..] == [];
    assert [true, true, false, false][1..] == [true, false, false];
    assert [true, false, false][1..] == [false, false];
  }

  /** As written, clearing the en passant file also clears the colour to move: a board with white to move ends with black to move. */
  method ClearEnPassantAsWrittenLosesTurn() returns (r: Color)
    ensures r == Black
  {
    var words := new Word[ArraySize](_ => FromInt(0));
    var b := new ArrayBoardBuilder.FromWords(words);
    b.WithColorToMove(White);
    b.WithEnPassantAsWritten(None);
    r := b.Build().WhoseMove();
  }
}
