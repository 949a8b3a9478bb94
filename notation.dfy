/**
 * The move grammar `MoveParser.buildRegex` builds, after Standard Algebraic
 * Notation (PGN Standard, section 8.2.3): a piece move such as "Nbd7" or
 * "R1xe4", a pawn move such as "e4", "exd5" or "e8=Q", or a castle written
 * with any of '0', 'O' and 'o'. A string of the grammar is decoded into the
 * named groups of the regular expression.
 */
module AlgebraicNotation {
  import opened Wrappers
  import Seqs
  import opened Squares
  import opened PieceTypes

  /** The named groups of a match: which alternative matched and what each group holds. */
  datatype Notation =
    | PieceMove(piece: PieceType, startFile: Option<Coord>, startRank: Option<Coord>, isCapture: bool, dest: Square)
    | PawnMove(captureFrom: Option<Coord>, destFile: Coord, destRank: Coord, promotion: Option<PieceType>)
    | Castle(letters: string)

  predicate IsFileChar(c: char) {
    'a' <= c <= 'h'
  }

  predicate IsRankChar(c: char) {
    '1' <= c <= '8'
  }

  function FileOf(c: char): Coord
    requires IsFileChar(c)
  {
    c as int - 'a' as int
  }

  function RankOf(c: char): Coord
    requires IsRankChar(c)
  {
    c as int - '1' as int
  }

  lemma LetterAndDigitRoundTrip(f: Coord, r: Coord)
    ensures IsFileChar(FileLetter(f)) && FileOf(FileLetter(f)) == f
    ensures IsRankChar(RankDigit(r)) && RankOf(RankDigit(r)) == r
  {
  }

  /** `[KQRBN]`: the letters of the pieces other than the pawn. */
  predicate IsPieceLetter(c: char) {
    c == 'K' || c == 'Q' || c == 'R' || c == 'B' || c == 'N'
  }

  /** `[QRBN]`: the letters of the promotion pieces. */
  predicate IsPromotionLetter(c: char) {
    c == 'Q' || c == 'R' || c == 'B' || c == 'N'
  }

  /** `PieceType.getByLetter` on a letter of `[KQRBN]`. */
  function PieceOf(c: char): (t: PieceType)
    requires IsPieceLetter(c)
    ensures t.Letter() == [c] && t != Pawn
    ensures IsPromotionLetter(c) <==> t.IsPromotionPiece()
  {
    if c == 'K' then King else if c == 'Q' then Queen else if c == 'R' then Rook else if c == 'B' then Bishop else Knight
  }

  /** `[0Oo]`. */
  predicate IsCastleLetter(c: char) {
    c == '0' || c == 'O' || c == 'o'
  }

  /** The decodings the grammar can produce. */
  predicate WellFormed(n: Notation) {
    match n
    case PieceMove(piece, _, _, _, _) => piece != Pawn
    case PawnMove(_, _, rank, promotion) =>
      if promotion.None? then 1 <= rank <= 6 else (rank == 0 || rank == 7) && promotion.value.IsPromotionPiece()
    case Castle(letters) => (|letters| == 2 || |letters| == 3) && forall i :: 0 <= i < |letters| ==> IsCastleLetter(letters[i])
  }

  /** The one string of the grammar each decoding comes from. */
  function Render(n: Notation): string
    requires WellFormed(n)
  {
    match n
    case PieceMove(piece, startFile, startRank, isCapture, dest) =>
      piece.Letter() + RenderGroups(startFile, startRank, isCapture) + Name(dest)
    case PawnMove(captureFrom, destFile, destRank, promotion) =>
      (if captureFrom.Some? then [FileLetter(captureFrom.value), 'x'] else [])
        + [FileLetter(destFile), RankDigit(destRank)]
        + (if promotion.Some? then "=" + promotion.value.Letter() else "")
    case Castle(letters) =>
      [letters[0], '-', letters[1]] + (if |letters| == 3 then ['-', letters[2]] else [])
  }

  /** The optional start file, start rank and 'x' of a piece move, as written. */
  function RenderGroups(startFile: Option<Coord>, startRank: Option<Coord>, isCapture: bool): string {
    (if startFile.Some? then [FileLetter(startFile.value)] else [])
      + (if startRank.Some? then [RankDigit(startRank.value)] else [])
      + (if isCapture then "x" else "")
  }

  /**
   * The optional groups between the piece letter and the destination of a
   * piece move, read from the right: an 'x', then a rank, then a file, and
   * nothing else.
   */
  function ParseGroups(groups: string): Option<(Option<Coord>, Option<Coord>, bool)> {
    var isCapture := |groups| > 0 && groups[|groups| - 1] == 'x';
    var beforeCapture := if isCapture then groups[..|groups| - 1] else groups;
    var hasRank := |beforeCapture| > 0 && IsRankChar(beforeCapture[|beforeCapture| - 1]);
    var beforeRank := if hasRank then beforeCapture[..|beforeCapture| - 1] else beforeCapture;
    var hasFile := |beforeRank| > 0 && IsFileChar(beforeRank[|beforeRank| - 1]);
    var beforeFile := if hasFile then beforeRank[..|beforeRank| - 1] else beforeRank;
    if beforeFile != [] then None
    else Some((
      if hasFile then Some(FileOf(beforeRank[|beforeRank| - 1])) else None,
      if hasRank then Some(RankOf(beforeCapture[|beforeCapture| - 1])) else None,
      isCapture))
  }

  lemma ParseGroupsRender(startFile: Option<Coord>, startRank: Option<Coord>, isCapture: bool)
    ensures ParseGroups(RenderGroups(startFile, startRank, isCapture)) == Some((startFile, startRank, isCapture))
  {
    var file: string := if startFile.Some? then [FileLetter(startFile.value)] else [];
    var rank: string := if startRank.Some? then [RankDigit(startRank.value)] else [];
    var groups := RenderGroups(startFile, startRank, isCapture);
    var beforeCapture := if isCapture then groups[..|groups| - 1] else groups;
    assert beforeCapture == file + rank;
    if startRank.Some? {
      LetterAndDigitRoundTrip(0, startRank.value);
      assert beforeCapture[..|beforeCapture| - 1] == file;
    }
    if startFile.Some? {
      LetterAndDigitRoundTrip(startFile.value, 0);
    }
  }

  lemma RenderGroupsParse(groups: string)
    requires ParseGroups(groups).Some?
    ensures var g := ParseGroups(groups).value; RenderGroups(g.0, g.1, g.2) == groups
  {
    var isCapture := |groups| > 0 && groups[|groups| - 1] == 'x';
    var beforeCapture := if isCapture then groups[..|groups| - 1] else groups;
    var hasRank := |beforeCapture| > 0 && IsRankChar(beforeCapture[|beforeCapture| - 1]);
    var beforeRank := if hasRank then beforeCapture[..|beforeCapture| - 1] else beforeCapture;
    var g := ParseGroups(groups).value;
    var file: string := if g.0.Some? then [FileLetter(g.0.value)] else [];
    var rank: string := if g.1.Some? then [RankDigit(g.1.value)] else [];
    assert beforeRank == file;
    assert beforeCapture == file + rank;
  }

  /**
   * The `pieceMove` alternative: a piece letter, the optional groups and
   * the destination square, which is the last two characters.
   */
  function ParsePiece(s: string): Option<Notation> {
    if |s| < 3 || !IsPieceLetter(s[0]) || !IsFileChar(s[|s| - 2]) || !IsRankChar(s[|s| - 1]) then None
    else
      match ParseGroups(s[1..|s| - 2])
      case None => None
      case Some(g) => Some(PieceMove(PieceOf(s[0]), g.0, g.1, g.2, Square(FileOf(s[|s| - 2]), RankOf(s[|s| - 1]))))
  }

  /**
   * The `pawnMove` alternative: an optional start file and 'x', the
   * destination file, then a rank from 2 to 7 or a last rank followed by
   * '=' and a promotion letter.
   */
  function ParsePawn(s: string): Option<Notation> {
    var isCapture := |s| >= 2 && IsFileChar(s[0]) && s[1] == 'x';
    var rest := if isCapture then s[2..] else s;
    var captureFrom := if isCapture then Some(FileOf(s[0])) else None;
    if |rest| == 2 && IsFileChar(rest[0]) && '2' <= rest[1] <= '7' then
      Some(PawnMove(captureFrom, FileOf(rest[0]), RankOf(rest[1]), None))
    else if |rest| == 4 && IsFileChar(rest[0]) && (rest[1] == '1' || rest[1] == '8') && rest[2] == '=' && IsPromotionLetter(rest[3]) then
      Some(PawnMove(captureFrom, FileOf(rest[0]), RankOf(rest[1]), Some(PieceOf(rest[3]))))
    else None
  }

  /** The `castle` alternative: two castle letters joined by '-', and a third for `queenside`. */
  function ParseCastle(s: string): Option<Notation> {
    if |s| == 3 && IsCastleLetter(s[0]) && s[1] == '-' && IsCastleLetter(s[2]) then Some(Castle([s[0], s[2]]))
    else if |s| == 5 && IsCastleLetter(s[0]) && s[1] == '-' && IsCastleLetter(s[2]) && s[3] == '-' && IsCastleLetter(s[4]) then
      Some(Castle([s[0], s[2], s[4]]))
    else None
  }

  /** The three alternatives begin with different characters, so at most one applies. */
  function ParseBody(s: string): Option<Notation> {
    if s == [] then None
    else if IsPieceLetter(s[0]) then ParsePiece(s)
    else if IsFileChar(s[0]) then ParsePawn(s)
    else ParseCastle(s)
  }

  lemma ParsePieceRender(n: Notation)
    requires n.PieceMove? && WellFormed(n)
    ensures ParsePiece(Render(n)) == Some(n)
  {
    var s := Render(n);
    var groups := RenderGroups(n.startFile, n.startRank, n.isCapture);
    assert s == n.piece.Letter() + groups + Name(n.dest);
    assert s[1..|s| - 2] == groups;
    LetterAndDigitRoundTrip(n.dest.file, n.dest.rank);
    ParseGroupsRender(n.startFile, n.startRank, n.isCapture);
  }

  lemma ParsePawnRender(n: Notation)
    requires n.PawnMove? && WellFormed(n)
    ensures ParsePawn(Render(n)) == Some(n)
  {
    var s := Render(n);
    var capture: string := if n.captureFrom.Some? then [FileLetter(n.captureFrom.value), 'x'] else [];
    var promotion: string := if n.promotion.Some? then "=" + n.promotion.value.Letter() else "";
    assert s == capture + [FileLetter(n.destFile), RankDigit(n.destRank)] + promotion;
    LetterAndDigitRoundTrip(n.destFile, n.destRank);
    if n.captureFrom.Some? {
      LetterAndDigitRoundTrip(n.captureFrom.value, 0);
      assert s[2..] == [FileLetter(n.destFile), RankDigit(n.destRank)] + promotion;
    }
  }

  /** Every decoding the grammar produces is decoded again from its rendering. */
  lemma ParseRender(n: Notation)
    requires WellFormed(n)
    ensures ParseBody(Render(n)) == Some(n)
  {
    match n
    case PieceMove(_, _, _, _, _) =>
      ParsePieceRender(n);
    case PawnMove(captureFrom, destFile, _, _) =>
      ParsePawnRender(n);
      if captureFrom.Some? {
        LetterAndDigitRoundTrip(captureFrom.value, 0);
      } else {
        LetterAndDigitRoundTrip(destFile, 0);
      }
    case Castle(letters) =>
      if |letters| == 2 {
        assert [letters[0], letters[1]] == letters;
      } else {
        assert [letters[0], letters[1], letters[2]] == letters;
      }
  }

  lemma RenderParsePiece(s: string)
    requires ParsePiece(s).Some?
    ensures WellFormed(ParsePiece(s).value) && Render(ParsePiece(s).value) == s
  {
    var n := ParsePiece(s).value;
    RenderGroupsParse(s[1..|s| - 2]);
    assert n.piece.Letter() == s[..1];
    assert Name(n.dest) == s[|s| - 2..] by {
      LetterAndDigitRoundTrip(n.dest.file, n.dest.rank);
      assert Name(n.dest) == [s[|s| - 2], s[|s| - 1]];
    }
    Seqs.SplitThree(s, 1, |s| - 2);
  }

  lemma RenderParsePawn(s: string)
    requires ParsePawn(s).Some?
    ensures WellFormed(ParsePawn(s).value) && Render(ParsePawn(s).value) == s
  {
    var n := ParsePawn(s).value;
    var isCapture := |s| >= 2 && IsFileChar(s[0]) && s[1] == 'x';
    var k := if isCapture then 2 else 0;
    var capture: string := if n.captureFrom.Some? then [FileLetter(n.captureFrom.value), 'x'] else [];
    var promotion: string := if n.promotion.Some? then "=" + n.promotion.value.Letter() else "";
    assert capture == s[..k];
    assert [FileLetter(n.destFile), RankDigit(n.destRank)] == s[k..k + 2];
    assert promotion == s[k + 2..] by {
      if n.promotion.Some? {
        assert s[k + 2..] == [s[k + 2], s[k + 3]];
      }
    }
    Seqs.SplitThree(s, k, k + 2);
  }

  /** Every string the grammar accepts is the rendering of what it decodes to. */
  lemma RenderParse(s: string)
    requires ParseBody(s).Some?
    ensures WellFormed(ParseBody(s).value) && Render(ParseBody(s).value) == s
  {
    if IsPieceLetter(s[0]) {
      RenderParsePiece(s);
    } else if IsFileChar(s[0]) {
      RenderParsePawn(s);
    }
  }

  /** Java's `\s`: space, tab, newline, vertical tab, form feed and carriage return. */
  predicate IsSpace(c: char) {
    c == ' ' || c == '\t' || c == '\n' || c == '\U{0B}' || c == '\U{0C}' || c == '\r'
  }

  /** `[+#?!]`: a check, mate or annotation mark. */
  predicate IsSuffix(c: char) {
    c == '+' || c == '#' || c == '?' || c == '!'
  }

  function TrimLeft(s: string): (r: string)
    ensures |r| <= |s| && r == s[|s| - |r|..]
    ensures r != [] ==> !IsSpace(r[0])
  {
    if s != [] && IsSpace(s[0]) then TrimLeft(s[1..]) else s
  }

  function TrimRight(s: string): (r: string)
    ensures |r| <= |s| && r == s[..|r|]
    ensures r != [] ==> !IsSpace(r[|r| - 1])
  {
    if s != [] && IsSpace(s[|s| - 1]) then TrimRight(s[..|s| - 1]) else s
  }

  function DropSuffix(s: string): (r: string)
    ensures s != [] && IsSuffix(s[|s| - 1]) ==> r + [s[|s| - 1]] == s
    ensures s == [] || !IsSuffix(s[|s| - 1]) ==> r == s
  {
    if s != [] && IsSuffix(s[|s| - 1]) then s[..|s| - 1] else s
  }

  /**
   * `COMPILED_REGEX.matcher(s).matches()` as built: the alternation binds
   * loosest, so the whole string must be leading whitespace and a piece
   * move, or exactly a pawn move, or a castle followed by an optional
   * suffix mark and trailing whitespace.
   */
  function MatchAsWritten(s: string): (r: Option<Notation>)
    ensures r.Some? ==> r == Match(s)
  {
    var piece := ParsePiece(TrimLeft(s));
    if piece.Some? then PieceMatches(s); piece
    else
      var pawn := ParsePawn(s);
      if pawn.Some? then PawnMatches(s); pawn
      else
        var castle := ParseCastle(DropSuffix(TrimRight(s)));
        if castle.Some? then CastleMatches(s); castle else castle
  }

  /** A piece move after leading white space is what the intended match reads. */
  lemma PieceMatches(s: string)
    requires ParsePiece(TrimLeft(s)).Some?
    ensures Match(s) == ParsePiece(TrimLeft(s))
  {
    var t := TrimLeft(s);
    assert !IsSpace(t[|t| - 1]) && !IsSuffix(t[|t| - 1]);
    assert TrimRight(t) == t;
    assert DropSuffix(t) == t;
  }

  /** A bare pawn move is what the intended match reads. */
  lemma PawnMatches(s: string)
    requires ParsePawn(s).Some?
    ensures Match(s) == ParsePawn(s)
  {
    assert IsFileChar(s[0]) && !IsSpace(s[0]) && !IsPieceLetter(s[0]);
    assert TrimLeft(s) == s;
    assert !IsSpace(s[|s| - 1]) && !IsSuffix(s[|s| - 1]);
    assert TrimRight(s) == s;
    assert DropSuffix(s) == s;
  }

  /** A castle with its mark and trailing white space is what the intended match reads. */
  lemma CastleMatches(s: string)
    requires ParseCastle(DropSuffix(TrimRight(s))).Some?
    ensures Match(s) == ParseCastle(DropSuffix(TrimRight(s)))
  {
    var c := DropSuffix(TrimRight(s));
    HeadKept(s);
    assert !IsSpace(s[0]);
    assert TrimLeft(s) == s;
    assert !IsPieceLetter(c[0]) && !IsFileChar(c[0]);
  }

  /** Trimming white space and a mark from the right keeps the first character. */
  lemma HeadKept(s: string)
    requires |DropSuffix(TrimRight(s))| > 0
    ensures s != [] && DropSuffix(TrimRight(s))[0] == s[0]
  {
    var t := TrimRight(s);
    assert t[0] == s[0];
    if t != [] && IsSuffix(t[|t| - 1]) {
      assert DropSuffix(t) == t[..|t| - 1];
    }
  }

  /** The match evidently intended: leading whitespace, any one move, an optional suffix mark, trailing whitespace. */
  function Match(s: string): Option<Notation> {
    ParseBody(DropSuffix(TrimRight(TrimLeft(s))))
  }

  /** A pawn move starts with a file letter and a piece move with a piece letter. */
  lemma RenderStarts(n: Notation)
    requires WellFormed(n) && !n.Castle?
    ensures |Render(n)| >= 2
    ensures n.PawnMove? ==> IsFileChar(Render(n)[0])
    ensures n.PieceMove? ==> IsPieceLetter(Render(n)[0]) && |Render(n)| >= 3
  {
    match n
    case PawnMove(captureFrom, destFile, _, _) =>
      LetterAndDigitRoundTrip(if captureFrom.Some? then captureFrom.value else destFile, 0);
    case PieceMove(piece, _, _, _, _) =>
      assert Render(n)[0] == piece.Letter()[0];
  }

  /** A string that starts with white space is neither a pawn move nor a castle. */
  lemma SpacedIsNoMove(space: char, body: string)
    requires IsSpace(space) && |body| >= 2
    ensures ParsePawn([space] + body) == None && ParseCastle([space] + body) == None
  {
    var s := [space] + body;
    assert s[0] == space;
  }

  /** A string ending in a suffix mark is neither a piece move nor a pawn move. */
  lemma MarkedIsNoMove(s: string)
    requires s != [] && IsSuffix(s[|s| - 1])
    ensures ParsePiece(s) == None && ParsePawn(s) == None
  {
    var isCapture := |s| >= 2 && IsFileChar(s[0]) && s[1] == 'x';
    var rest := if isCapture then s[2..] else s;
    assert rest != [] ==> rest[|rest| - 1] == s[|s| - 1];
  }

  /**
   * A pawn move with a check, mate or annotation mark is refused as
   * written (only a castle may carry the mark) and accepted as intended.
   */
  lemma PawnCheckRefusedAsWritten(n: Notation, mark: char)
    requires n.PawnMove? && WellFormed(n) && IsSuffix(mark)
    ensures MatchAsWritten(Render(n) + [mark]) == None
    ensures Match(Render(n) + [mark]) == Some(n)
  {
    var body := Render(n);
    var s := body + [mark];
    RenderEnds(n);
    RenderStarts(n);
    MarkStripped(body, mark);
    MarkedIsNoMove(s);
    assert ParsePiece(s) == None;
    assert ParseCastle(body) == None;
    ParseRender(n);
  }

  /** So is a piece move with such a mark. */
  lemma PieceCheckRefusedAsWritten(n: Notation, mark: char)
    requires n.PieceMove? && WellFormed(n) && IsSuffix(mark)
    ensures MatchAsWritten(Render(n) + [mark]) == None
    ensures Match(Render(n) + [mark]) == Some(n)
  {
    var body := Render(n);
    var s := body + [mark];
    RenderEnds(n);
    RenderStarts(n);
    MarkStripped(body, mark);
    MarkedIsNoMove(s);
    assert ParseCastle(body) == None;
    ParseRender(n);
  }

  /** A body that starts and ends with neither white space nor a mark loses exactly the one mark after it. */
  lemma MarkStripped(body: string, mark: char)
    requires body != [] && !IsSpace(body[0]) && !IsSpace(body[|body| - 1]) && !IsSuffix(body[|body| - 1]) && IsSuffix(mark)
    ensures TrimLeft(body + [mark]) == body + [mark]
    ensures DropSuffix(TrimRight(body + [mark])) == body
  {
    var s := body + [mark];
    assert s[0] == body[0];
    assert TrimRight(s) == s;
    assert s[..|s| - 1] == body;
  }

  /** And a pawn move after white space, which only a piece move may have. */
  lemma PawnAfterSpaceRefusedAsWritten(n: Notation, space: char)
    requires n.PawnMove? && WellFormed(n) && IsSpace(space)
    ensures MatchAsWritten([space] + Render(n)) == None
    ensures Match([space] + Render(n)) == Some(n)
  {
    var body := Render(n);
    var s := [space] + body;
    RenderEnds(n);
    RenderStarts(n);
    SpaceStripped(body, space);
    assert ParsePiece(body) == None;
    SpacedIsNoMove(space, body);
    ParseRender(n);
  }

  /** A body that starts and ends with neither white space nor a mark loses exactly the white space before it. */
  lemma SpaceStripped(body: string, space: char)
    requires body != [] && !IsSpace(body[0]) && !IsSpace(body[|body| - 1]) && !IsSuffix(body[|body| - 1]) && IsSpace(space)
    ensures TrimLeft([space] + body) == body
    ensures DropSuffix(TrimRight([space] + body)) == [space] + body
    ensures DropSuffix(TrimRight(body)) == body
  {
    var s := [space] + body;
    assert s[1..] == body;
    assert s[|s| - 1] == body[|body| - 1];
  }

  lemma {:induction false} TrimLeftSkipsSpaces(lead: string, body: string)
    requires forall i :: 0 <= i < |lead| ==> IsSpace(lead[i])
    requires body != [] && !IsSpace(body[0])
    ensures TrimLeft(lead + body) == body
  {
    if lead != [] {
      assert (lead + body)[1..] == lead[1..] + body;
      TrimLeftSkipsSpaces(lead[1..], body);
    }
  }

  lemma {:induction false} TrimRightSkipsSpaces(body: string, trail: string)
    requires forall i :: 0 <= i < |trail| ==> IsSpace(trail[i])
    requires body != [] && !IsSpace(body[|body| - 1])
    ensures TrimRight(body + trail) == body
  {
    if trail != [] {
      assert (body + trail)[..|body + trail| - 1] == body + trail[..|trail| - 1];
      TrimRightSkipsSpaces(body, trail[..|trail| - 1]);
    }
  }

  /** A rendering ends in a rank digit, a promotion letter or a castle letter: never a space or a suffix mark. */
  lemma RenderEnds(n: Notation)
    requires WellFormed(n)
    ensures |Render(n)| >= 2
    ensures !IsSpace(Render(n)[0]) && !IsSpace(Render(n)[|Render(n)| - 1]) && !IsSuffix(Render(n)[|Render(n)| - 1])
  {
    var s := Render(n);
    match n
    case PieceMove(piece, _, _, _, dest) =>
      assert s[0] == piece.Letter()[0];
      assert s[|s| - 1] == RankDigit(dest.rank);
    case PawnMove(captureFrom, destFile, destRank, promotion) =>
      assert s[0] == FileLetter(if captureFrom.Some? then captureFrom.value else destFile);
      assert s[|s| - 1] == if promotion.Some? then promotion.value.Letter()[0] else RankDigit(destRank);
    case Castle(letters) =>
      assert s[0] == letters[0];
      assert s[|s| - 1] == letters[|letters| - 1];
  }

  /** As intended, a move may be surrounded by whitespace and followed by one suffix mark. */
  lemma MatchDecorated(n: Notation, lead: string, suffix: string, trail: string)
    requires WellFormed(n)
    requires forall i :: 0 <= i < |lead| ==> IsSpace(lead[i])
    requires forall i :: 0 <= i < |trail| ==> IsSpace(trail[i])
    requires suffix == [] || (|suffix| == 1 && IsSuffix(suffix[0]))
    ensures Match(lead + Render(n) + suffix + trail) == Some(n)
  {
    RenderEnds(n);
    DecorationsStripped(Render(n), lead, suffix, trail);
    ParseRender(n);
  }

  /** Leading and trailing whitespace and one suffix mark come off a body that neither starts nor ends with them. */
  lemma DecorationsStripped(body: string, lead: string, suffix: string, trail: string)
    requires body != [] && !IsSpace(body[0]) && !IsSpace(body[|body| - 1]) && !IsSuffix(body[|body| - 1])
    requires forall i :: 0 <= i < |lead| ==> IsSpace(lead[i])
    requires forall i :: 0 <= i < |trail| ==> IsSpace(trail[i])
    requires suffix == [] || (|suffix| == 1 && IsSuffix(suffix[0]))
    ensures DropSuffix(TrimRight(TrimLeft(lead + body + suffix + trail))) == body
  {
    LeadStripped(body + suffix + trail, lead);
    Seqs.ConcatAssociative(lead, body, suffix);
    Seqs.ConcatAssociative(lead, body + suffix, trail);
    TrailStripped(body, suffix, trail);
    SuffixStripped(body, suffix);
  }

  lemma LeadStripped(rest: string, lead: string)
    requires rest != [] && !IsSpace(rest[0])
    requires forall i :: 0 <= i < |lead| ==> IsSpace(lead[i])
    ensures TrimLeft(lead + rest) == rest
  {
    TrimLeftSkipsSpaces(lead, rest);
  }

  lemma TrailStripped(body: string, suffix: string, trail: string)
    requires body != [] && !IsSpace(body[|body| - 1])
    requires forall i :: 0 <= i < |trail| ==> IsSpace(trail[i])
    requires suffix == [] || (|suffix| == 1 && IsSuffix(suffix[0]))
    ensures TrimRight(body + suffix + trail) == body + suffix
  {
    var marked := body + suffix;
    assert marked[|marked| - 1] == if suffix == [] then body[|body| - 1] else suffix[0];
    TrimRightSkipsSpaces(marked, trail);
  }

  lemma SuffixStripped(body: string, suffix: string)
    requires body != [] && !IsSuffix(body[|body| - 1])
    requires suffix == [] || (|suffix| == 1 && IsSuffix(suffix[0]))
    ensures DropSuffix(body + suffix) == body
  {
    if suffix != [] {
      assert (body + suffix)[..|body + suffix| - 1] == body;
    } else {
      assert body + suffix == body;
    }
  }

  /** On an undecorated move the written and the intended matcher agree. */
  lemma MatchAsWrittenOnBareMoves(n: Notation)
    requires WellFormed(n)
    ensures MatchAsWritten(Render(n)) == Some(n) && Match(Render(n)) == Some(n)
  {
    var s := Render(n);
    RenderEnds(n);
    ParseRender(n);
    assert TrimLeft(s) == s;
    assert TrimRight(s) == s;
    match n
    case PieceMove(_, _, _, _, _) =>
    case PawnMove(_, _, _, _) =>
      assert ParsePiece(s) == None;
    case Castle(_) =>
      assert ParsePiece(s) == None;
      assert ParsePawn(s) == None;
  }
}
