/**
 * `stringUtilities.FENStringWriter`: a position written in Forsyth-Edwards
 * Notation (PGN Standard, section 16.1). Six fields are appended to one
 * string builder and separated by single spaces: the placement (ranks 8 to
 * 1, separated by '/'), the colour to move, the castling rights, the en
 * passant target square, the plies since the last irreversible move and the
 * move number.
 */
module FenWriting {
  import opened Wrappers
  import opened Squares
  import opened Colors
  import opened CastlingRights
  import opened PieceTypes
  import opened Pieces

  /** The questions the writer asks of `representation.Board`. */
  datatype FenBoard = FenBoard(
    pieceAt: Square -> Piece,
    whoseMove: Color,
    castlingAllowed: set<CastlingRight>,
    enPassantFile: Option<Coord>,
    pliesSinceLastIrreversibleChange: int)

  predicate IsDigitChar(c: char) {
    '0' <= c <= '9'
  }

  function DigitChar(d: nat): (c: char)
    requires d < 10
    ensures IsDigitChar(c) && c as int - '0' as int == d
  {
    ('0' as int + d) as char
  }

  /**
   * `Piece.toFENCharacter` (not part of this model): the letter of the
   * piece type, upper case for white and lower case for black.
   */
  function FenChar(p: Piece): (c: char)
    requires p != NoPiece
    ensures !IsDigitChar(c) && c != '/' && c != ' '
  {
    var upper := p.Type().value.Letter()[0];
    if p.Color() == Some(White) then upper else (upper as int + 32) as char
  }

  /** `addEmptySquares`: the count of a run of empty squares, and nothing for no run. */
  function EmptyCount(n: nat): (r: string)
    requires n <= 8
    ensures n == 0 <==> r == []
    ensures r != [] ==> r == [DigitChar(n)] && r[0] != '0'
  {
    if n > 0 then [DigitChar(n)] else ""
  }

  /** The occupants of a rank, file a first. */
  function Cells(pieceAt: Square -> Piece, rank: Coord): (r: seq<Piece>)
    ensures |r| == 8 && forall f :: 0 <= f < 8 ==> r[f] == pieceAt(Square(f, rank))
  {
    seq(8, f requires 0 <= f < 8 => pieceAt(Square(f, rank)))
  }

  /**
   * The text of the remaining squares of a rank, when `count` empty squares
   * precede them since the last piece: the loop of `addFENForRank`.
   */
  function Scan(cells: seq<Piece>, count: nat): (r: string)
    requires count + |cells| <= 8
    ensures '0' !in r && ' ' !in r && '/' !in r
  {
    if cells == [] then EmptyCount(count)
    else if cells[0] != NoPiece then EmptyCount(count) + [FenChar(cells[0])] + Scan(cells[1..], 0)
    else Scan(cells[1..], count + 1)
  }

  /** The placement text of one rank. */
  function RankText(pieceAt: Square -> Piece, rank: Coord): string {
    Scan(Cells(pieceAt, rank), 0)
  }

  /** A rank text read back: a digit stands for that many empty squares, any other character for one piece. */
  function Expand(text: string): seq<Option<char>> {
    if text == [] then []
    else
      (if IsDigitChar(text[0]) then Nones(text[0] as int - '0' as int) else [Some(text[0])])
        + Expand(text[1..])
  }

  /** `n` empty squares. */
  function Nones(n: nat): (r: seq<Option<char>>)
    ensures |r| == n && forall i :: 0 <= i < n ==> r[i].None?
  {
    seq(n, _ => None)
  }

  lemma {:induction false} ExpandAppend(a: string, b: string)
    ensures Expand(a + b) == Expand(a) + Expand(b)
  {
    if a == [] {
      assert a + b == b;
    } else {
      assert (a + b)[0] == a[0];
      assert (a + b)[1..] == a[1..] + b;
      ExpandAppend(a[1..], b);
    }
  }

  /** What each square holds: none for an empty square, otherwise its FEN character. */
  function Occupants(cells: seq<Piece>): (r: seq<Option<char>>)
    ensures |r| == |cells|
  {
    seq(|cells|, i requires 0 <= i < |cells| => if cells[i] == NoPiece then None else Some(FenChar(cells[i])))
  }

  lemma ExpandEmptyCount(n: nat)
    requires n <= 8
    ensures Expand(EmptyCount(n)) == Nones(n)
  {
    if n > 0 {
      assert EmptyCount(n)[1..] == [];
    }
  }

  /** A pending count, a piece and more text read back as that many empty squares, the piece and the rest. */
  lemma ExpandPiece(count: nat, c: char, rest: string)
    requires count <= 8 && !IsDigitChar(c)
    ensures Expand(EmptyCount(count) + [c] + rest) == Nones(count) + [Some(c)] + Expand(rest)
  {
    ExpandEmptyCount(count);
    ExpandAppend(EmptyCount(count) + [c], rest);
    ExpandAppend(EmptyCount(count), [c]);
    assert Expand([c]) == [Some(c)] by {
      assert [c][1..] == [];
    }
  }

  lemma OccupantsHead(cells: seq<Piece>)
    requires cells != []
    ensures Occupants(cells) == [if cells[0] == NoPiece then None else Some(FenChar(cells[0]))] + Occupants(cells[1..])
  {
  }

  lemma {:induction false} ScanExpands(cells: seq<Piece>, count: nat)
    requires count + |cells| <= 8
    ensures Expand(Scan(cells, count)) == Nones(count) + Occupants(cells)
  {
    if cells == [] {
      ExpandEmptyCount(count);
    } else {
      OccupantsHead(cells);
      if cells[0] != NoPiece {
        ExpandPiece(count, FenChar(cells[0]), Scan(cells[1..], 0));
        ScanExpands(cells[1..], 0);
        assert Nones(0) == [];
      } else {
        ScanExpands(cells[1..], count + 1);
        assert Nones(count + 1) == Nones(count) + [None];
      }
    }
  }

  /**
   * Each rank text reads back to exactly the eight squares of the rank in
   * file order, so it covers eight squares, and it never holds a zero.
   */
  lemma RankTextReadsBack(pieceAt: Square -> Piece, rank: Coord)
    ensures var squares := Expand(RankText(pieceAt, rank));
      |squares| == 8
      && forall f :: 0 <= f < 8 ==>
        (squares[f].None? <==> pieceAt(Square(f, rank)) == NoPiece)
        && (squares[f].Some? ==> squares[f].value == FenChar(pieceAt(Square(f, rank))))
    ensures '0' !in RankText(pieceAt, rank)
  {
    ScanExpands(Cells(pieceAt, rank), 0);
    assert Nones(0) == [];
  }

  /** `joinActions`: the parts with the separator between each two. */
  function Join(parts: seq<string>, sep: char): string {
    if parts == [] then ""
    else if |parts| == 1 then parts[0]
    else Join(parts[..|parts| - 1], sep) + [sep] + parts[|parts| - 1]
  }

  /** Joining one more part: the separator, unless it is the first, then the part. */
  lemma JoinStep(parts: seq<string>, i: nat, sep: char)
    requires i < |parts|
    ensures Join(parts[..i + 1], sep) == Join(parts[..i], sep) + (if i > 0 then [sep] else []) + parts[i]
  {
    assert parts[..i + 1][..i] == parts[..i];
    if i == 0 {
      assert Join(parts[..0], sep) == "";
      assert parts[..1] == [parts[0]];
    }
  }

  /** The parts of `s` between the occurrences of `sep`. */
  function Split(s: string, sep: char): (r: seq<string>)
    ensures |r| >= 1
  {
    if s == [] then [""]
    else if s[|s| - 1] == sep then Split(s[..|s| - 1], sep) + [""]
    else
      var init := Split(s[..|s| - 1], sep);
      init[..|init| - 1] + [init[|init| - 1] + [s[|s| - 1]]]
  }

  /** Appending text free of the separator extends the last part. */
  lemma {:induction false} SplitExtend(s: string, t: string, sep: char)
    requires sep !in t
    ensures var parts := Split(s, sep);
      Split(s + t, sep) == parts[..|parts| - 1] + [parts[|parts| - 1] + t]
    decreases |t|
  {
    var parts := Split(s, sep);
    if t == [] {
      assert s + t == s;
      assert parts[|parts| - 1] + t == parts[|parts| - 1];
      assert parts[..|parts| - 1] + [parts[|parts| - 1]] == parts;
    } else {
      var u := t[..|t| - 1];
      assert (s + t)[..|s + t| - 1] == s + u;
      assert sep !in u by {
        assert forall i :: 0 <= i < |u| ==> u[i] == t[i];
      }
      SplitExtend(s, u, sep);
      assert (parts[|parts| - 1] + u) + [t[|t| - 1]] == parts[|parts| - 1] + t;
    }
  }

  lemma SplitOfPlain(t: string, sep: char)
    requires sep !in t
    ensures Split(t, sep) == [t]
  {
    SplitExtend("", t, sep);
    assert "" + t == t;
  }

  /** Joined parts free of the separator split back into the same parts. */
  lemma {:induction false} SplitJoin(parts: seq<string>, sep: char)
    requires |parts| >= 1
    requires forall i :: 0 <= i < |parts| ==> sep !in parts[i]
    ensures Split(Join(parts, sep), sep) == parts
  {
    if |parts| == 1 {
      SplitOfPlain(parts[0], sep);
    } else {
      var init := parts[..|parts| - 1];
      var last := parts[|parts| - 1];
      SplitJoin(init, sep);
      var joined := Join(init, sep);
      assert Split(joined + [sep], sep) == init + [""] by {
        assert (joined + [sep])[..|joined + [sep]| - 1] == joined;
      }
      assert Join(parts, sep) == (joined + [sep]) + last;
      SplitExtend(joined + [sep], last, sep);
      assert (init + [""])[..|init|] == init;
      assert (init + [""])[|init|] + last == last;
      assert init + [last] == parts;
    }
  }

  /** `addPosition`: the ranks from 8 down to 1. */
  function Ranks(pieceAt: Square -> Piece): (r: seq<string>)
    ensures |r| == 8
    ensures forall i :: 0 <= i < 8 ==> r[i] == RankText(pieceAt, 7 - i)
  {
    seq(8, i requires 0 <= i < 8 => RankText(pieceAt, 7 - i))
  }

  function PositionText(pieceAt: Square -> Piece): string {
    Join(Ranks(pieceAt), '/')
  }

  /** The placement field splits at '/' into the eight rank texts, rank 8 first. */
  lemma PositionSplitsIntoRanks(pieceAt: Square -> Piece)
    ensures Split(PositionText(pieceAt), '/') == Ranks(pieceAt)
    ensures ' ' !in PositionText(pieceAt)
  {
    SplitJoin(Ranks(pieceAt), '/');
    JoinAvoids(Ranks(pieceAt), '/', ' ');
  }

  lemma {:induction false} JoinAvoids(parts: seq<string>, sep: char, c: char)
    requires c != sep
    requires forall i :: 0 <= i < |parts| ==> c !in parts[i]
    ensures c !in Join(parts, sep)
  {
    if |parts| > 1 {
      JoinAvoids(parts[..|parts| - 1], sep, c);
    }
  }

  /** The letters of the allowed rights among `rights`, in order. */
  function RightsLetters(rights: seq<CastlingRight>, allowed: set<CastlingRight>): (r: string)
    ensures forall c :: c in r <==> exists i :: 0 <= i < |rights| && rights[i] in allowed && rights[i].Letter() == c
  {
    if rights == [] then ""
    else
      var init := RightsLetters(rights[..|rights| - 1], allowed);
      var last := rights[|rights| - 1];
      var r := init + (if last in allowed then [last.Letter()] else "");
      assert forall i :: 0 <= i < |rights| - 1 ==> rights[..|rights| - 1][i] == rights[i];
      r
  }

  /** `addCastlingRights`: the letters of the allowed rights in `values()` order, or "-" for none. */
  function CastlingText(allowed: set<CastlingRight>): string {
    var letters := RightsLetters(CastlingRights.Values, allowed);
    if letters == [] then "-" else letters
  }

  /** The castling field names exactly the allowed rights, and is "-" exactly when there are none. */
  lemma CastlingTextNamesRights(allowed: set<CastlingRight>, right: CastlingRight)
    ensures right in allowed ==> right.Letter() in CastlingText(allowed)
    ensures right.Letter() in CastlingText(allowed) ==> right in allowed
    ensures CastlingText(allowed) == "-" <==> allowed == {}
    ensures ' ' !in CastlingText(allowed)
  {
    var letters := RightsLetters(CastlingRights.Values, allowed);
    assert right == CastlingRights.Values[right.Ordinal()];
    assert '-' !in letters;
    assert letters != [] ==> letters[0] in letters;
    if allowed != {} {
      var some :| some in allowed;
      assert some == CastlingRights.Values[some.Ordinal()];
      assert some.Letter() in letters;
    }
  }

  /** `addEnPassantRights`: "-", or the square of the en passant file on the mover's en passant destination rank. */
  function EnPassantText(board: FenBoard): (r: string)
    ensures board.enPassantFile.None? <==> r == "-"
    ensures board.enPassantFile.Some? ==> r == Name(Square(board.enPassantFile.value, board.whoseMove.EnPassantDestinationRank()))
    ensures ' ' !in r
  {
    if board.enPassantFile.Some? then Name(Square(board.enPassantFile.value, board.whoseMove.EnPassantDestinationRank()))
    else "-"
  }

  predicate AllDigits(s: string) {
    forall i :: 0 <= i < |s| ==> IsDigitChar(s[i])
  }

  /** `String.valueOf` of a natural number: its decimal digits, the most significant first. */
  function NatText(n: nat): (r: string)
    ensures r != [] && AllDigits(r) && ' ' !in r && '-' !in r
  {
    if n < 10 then [DigitChar(n)] else NatText(n / 10) + [DigitChar(n % 10)]
  }

  /** `String.valueOf(int)`: a minus sign before the digits of a negative number. */
  function IntText(n: int): (r: string)
    ensures r != [] && ' ' !in r
  {
    if n < 0 then "-" + NatText(-n) else NatText(n)
  }

  /** The value of a string of decimal digits. */
  function DigitsValue(s: string): int
    requires AllDigits(s)
  {
    if s == [] then 0 else DigitsValue(s[..|s| - 1]) * 10 + (s[|s| - 1] as int - '0' as int)
  }

  /** The digits of a decimal number text, after its minus sign if it has one. */
  function Magnitude(s: string): string
    requires s != []
  {
    if s[0] == '-' then s[1..] else s
  }

  /** The value of `String.valueOf` read back. */
  function IntValue(s: string): int
    requires s != [] && AllDigits(Magnitude(s))
  {
    if s[0] == '-' then -DigitsValue(s[1..]) else DigitsValue(s)
  }

  lemma {:induction false} NatTextValue(n: nat)
    ensures DigitsValue(NatText(n)) == n
  {
    if n >= 10 {
      NatTextValue(n / 10);
      var t := NatText(n);
      assert t[..|t| - 1] == NatText(n / 10);
    }
  }

  /** The counters are written so that they read back. */
  lemma IntTextReadsBack(n: int)
    ensures AllDigits(Magnitude(IntText(n)))
    ensures IntValue(IntText(n)) == n
  {
    var t := IntText(n);
    if n < 0 {
      assert t[1..] == NatText(-n);
      NatTextValue(-n);
    } else {
      assert t[0] in NatText(n);
      NatTextValue(n);
    }
  }

  /** The six fields of the FEN string, in order. */
  function Fields(board: FenBoard, moveNumber: int): (r: seq<string>)
    ensures |r| == 6
  {
    [PositionText(board.pieceAt), [board.whoseMove.Letter()], CastlingText(board.castlingAllowed),
     EnPassantText(board), IntText(board.pliesSinceLastIrreversibleChange), IntText(moveNumber)]
  }

  /** The FEN string: the fields joined by single spaces. */
  function Fen(board: FenBoard, moveNumber: int): string {
    Join(Fields(board, moveNumber), ' ')
  }

  /**
   * The FEN string splits at spaces into exactly its six fields; its
   * placement field splits at '/' into the eight ranks from 8 down to 1;
   * its counters read back to their values.
   */
  lemma FenFields(board: FenBoard, moveNumber: int)
    ensures var fields := Split(Fen(board, moveNumber), ' ');
      |fields| == 6 && fields == Fields(board, moveNumber)
      && Split(fields[0], '/') == Ranks(board.pieceAt)
      && IntValue(fields[4]) == board.pliesSinceLastIrreversibleChange
      && IntValue(fields[5]) == moveNumber
  {
    var fields := Fields(board, moveNumber);
    PositionSplitsIntoRanks(board.pieceAt);
    CastlingTextNamesRights(board.castlingAllowed, WhiteKingside);
    IntTextReadsBack(board.pliesSinceLastIrreversibleChange);
    IntTextReadsBack(moveNumber);
    assert ' ' !in [board.whoseMove.Letter()];
    SplitJoin(fields, ' ');
  }

  /** A writer of one position: the constructor builds the whole string. */
  class FENStringWriter {
    const board: FenBoard
    const moveNumber: int
    var builder: string

    /** The constructor: `joinActions` over the six field actions, with a space between each two. */
    constructor (board: FenBoard, moveNumber: int)
      ensures this.board == board && this.moveNumber == moveNumber
      ensures builder == Fen(board, moveNumber)
    {
      this.board := board;
      this.moveNumber := moveNumber;
      builder := "";
      new;
      var fields := Fields(board, moveNumber);
      var k := 0;
      while k < 6
        invariant 0 <= k <= 6
        invariant builder == Join(fields[..k], ' ')
      {
        if k > 0 {
          builder := builder + " ";
        }
        RunAction(k);
        JoinStep(fields, k, ' ');
        k := k + 1;
      }
      assert fields[..6] == fields;
    }

    /** The `actions` list: the field action at index `k`. */
    method RunAction(k: nat)
      requires k < 6
      modifies this
      ensures builder == old(builder) + Fields(board, moveNumber)[k]
    {
      if k == 0 {
        AddPosition();
      } else if k == 1 {
        AddColorToMove();
      } else if k == 2 {
        AddCastlingRights();
      } else if k == 3 {
        AddEnPassantRights();
      } else if k == 4 {
        AddPliesSinceChange();
      } else {
        AddMoveNumber();
      }
    }

    /** `makeFEN`. */
    method MakeFEN() returns (r: string)
      ensures r == builder
    {
      r := builder;
    }

    /** `addPosition`: the rank texts from rank 8 down to rank 1, with '/' between them. */
    method AddPosition()
      modifies this
      ensures builder == old(builder) + PositionText(board.pieceAt)
    {
      var ranks := Ranks(board.pieceAt);
      var i := 0;
      while i < 8
        invariant 0 <= i <= 8
        invariant builder == old(builder) + Join(ranks[..i], '/')
      {
        AddRankOfPosition(i);
        JoinStep(ranks, i, '/');
        i := i + 1;
      }
      assert ranks[..8] == ranks;
    }

    /** One turn of `joinActions` in `addPosition`: the separator before every rank but rank 8, then the rank. */
    method AddRankOfPosition(i: nat)
      requires i < 8
      modifies this
      ensures builder == old(builder) + (if i > 0 then "/" else "") + RankText(board.pieceAt, 7 - i)
    {
      if i > 0 {
        builder := builder + "/";
      }
      AddFENForRank(7 - i);
    }

    /** `addFENForRank`: pieces as their FEN characters, runs of empty squares as their count. */
    method AddFENForRank(rank: Coord)
      modifies this
      ensures builder == old(builder) + RankText(board.pieceAt, rank)
    {
      var cells := Cells(board.pieceAt, rank);
      var numSinceLastPiece := 0;
      var file := 0;
      while file < 8
        invariant 0 <= numSinceLastPiece <= file <= 8
        invariant old(builder) + RankText(board.pieceAt, rank) == builder + Scan(cells[file..], numSinceLastPiece)
      {
        numSinceLastPiece := AddSquare(cells[file..], numSinceLastPiece);
        assert cells[file..][1..] == cells[file + 1..];
        file := file + 1;
      }
      assert cells[8..] == [];
      AddEmptySquares(numSinceLastPiece);
    }

    /**
     * One turn of the loop of `addFENForRank`, on the first of the remaining
     * squares: an occupied square writes the pending count and its piece
     * and resets the count; an empty one adds to the count.
     */
    method AddSquare(cells: seq<Piece>, numSinceLastPiece: nat) returns (newCount: nat)
      requires cells != [] && numSinceLastPiece + |cells| <= 8
      modifies this
      ensures newCount + |cells| <= 9
      ensures builder + Scan(cells[1..], newCount) == old(builder) + Scan(cells, numSinceLastPiece)
    {
      var occupant := cells[0];
      if occupant != NoPiece {
        ghost var before := builder;
        ghost var rest := Scan(cells[1..], 0);
        AddEmptySquares(numSinceLastPiece);
        builder := builder + [FenChar(occupant)];
        newCount := 0;
        assert builder == before + EmptyCount(numSinceLastPiece) + [FenChar(occupant)];
        assert before + (EmptyCount(numSinceLastPiece) + [FenChar(occupant)] + rest) == builder + rest;
      } else {
        newCount := numSinceLastPiece + 1;
      }
    }

    /** `addEmptySquares`: the count when it is positive. */
    method AddEmptySquares(numEmptySquares: nat)
      requires numEmptySquares <= 8
      modifies this
      ensures builder == old(builder) + EmptyCount(numEmptySquares)
    {
      if numEmptySquares > 0 {
        builder := builder + [DigitChar(numEmptySquares)];
      }
    }

    /** `addColorToMove`: the first character of the colour to move. */
    method AddColorToMove()
      modifies this
      ensures builder == old(builder) + [board.whoseMove.Letter()]
    {
      builder := builder + [board.whoseMove.Letter()];
    }

    /** `addCastlingRights`: each allowed right in `values()` order, then "-" when none was added. */
    method AddCastlingRights()
      modifies this
      ensures builder == old(builder) + CastlingText(board.castlingAllowed)
    {
      var addedCastleRight := false;
      var i := 0;
      while i < |CastlingRights.Values|
        invariant 0 <= i <= |CastlingRights.Values|
        invariant builder == old(builder) + RightsLetters(CastlingRights.Values[..i], board.castlingAllowed)
        invariant addedCastleRight <==> RightsLetters(CastlingRights.Values[..i], board.castlingAllowed) != []
      {
        assert CastlingRights.Values[..i + 1][..i] == CastlingRights.Values[..i];
        var added := AddCastlingRight(CastlingRights.Values[i]);
        addedCastleRight := addedCastleRight || added;
        i := i + 1;
      }
      assert CastlingRights.Values[..i] == CastlingRights.Values;
      if !addedCastleRight {
        builder := builder + "-";
      }
    }

    /** `addCastlingRight`: the right's letter when it is allowed, and whether it is. */
    method AddCastlingRight(right: CastlingRight) returns (canCastle: bool)
      modifies this
      ensures canCastle <==> right in board.castlingAllowed
      ensures builder == old(builder) + (if canCastle then [right.Letter()] else "")
    {
      canCastle := right in board.castlingAllowed;
      if canCastle {
        builder := builder + [right.Letter()];
      }
    }

    /** `addEnPassantRights`. */
    method AddEnPassantRights()
      modifies this
      ensures builder == old(builder) + EnPassantText(board)
    {
      if board.enPassantFile.Some? {
        builder := builder + Name(Square(board.enPassantFile.value, board.whoseMove.EnPassantDestinationRank()));
      } else {
        builder := builder + "-";
      }
    }

    /** `addPliesSinceChange`. */
    method AddPliesSinceChange()
      modifies this
      ensures builder == old(builder) + IntText(board.pliesSinceLastIrreversibleChange)
    {
      builder := builder + IntText(board.pliesSinceLastIrreversibleChange);
    }

    /** `addMoveNumber`. */
    method AddMoveNumber()
      modifies this
      ensures builder == old(builder) + IntText(moveNumber)
    {
      builder := builder + IntText(moveNumber);
    }
  }
}
