/**
 * The kinds of move a `BasicMove` is built from. Only the constants the move
 * builder and the typed constructor name are modelled; everything else falls
 * into their `default` branches, represented by `Normal`.
 */
module MoveTypes {
  datatype MoveType = Normal | Capture | Castle | Promotion | PromotionWithCapture | EnPassant {
    predicate IsCaptureKind() {
      this == Capture || this == PromotionWithCapture
    }

    predicate IsPromotionKind() {
      this == Promotion || this == PromotionWithCapture
    }
  }
}

/** `moves.BasicMove`: a move as plain fields, packed into and unpacked from an `int`. */
module BasicMoves {
  import opened Wrappers
  import opened Words
  import opened Squares
  import opened PieceTypes
  import opened MoveBitSections
  import opened MoveTypes

  datatype BasicMove = BasicMove(
    movingPiece: PieceType,
    isCapture: bool,
    capturedPiece: Option<PieceType>,
    start: Square,
    end: Square,
    isCastle: bool,
    isPromotion: bool,
    promotionPiece: Option<PieceType>,
    isEnPassant: bool)

  /** A move whose captured piece is present exactly for a capture and whose promotion piece is present exactly for a promotion, to a piece a pawn can become. */
  predicate WellFormed(m: BasicMove) {
    && (m.capturedPiece.Some? <==> m.isCapture)
    && (m.promotionPiece.Some? <==> m.isPromotion)
    && (m.promotionPiece.Some? ==> m.promotionPiece.value.IsPromotionPiece())
  }

  /** The kind of a move, read off its flags. */
  function KindOf(m: BasicMove): MoveType {
    if m.isCastle then Castle
    else if m.isEnPassant then EnPassant
    else if m.isPromotion && m.isCapture then PromotionWithCapture
    else if m.isPromotion then Promotion
    else if m.isCapture then Capture
    else Normal
  }

  /**
   * The private typed constructor: the switch on the kind sets the flags, with
   * PROMOTION_WITH_CAPTURE falling through into PROMOTION; the captured and
   * promotion pieces are kept only for the kinds that use them.
   */
  function Make(kind: MoveType, movingPiece: PieceType, start: Square, end: Square,
                capturedPiece: Option<PieceType>, promotionPiece: Option<PieceType>): (r: BasicMove)
    ensures r.isCapture <==> kind.IsCaptureKind()
    ensures r.isPromotion <==> kind.IsPromotionKind()
    ensures r.isCastle <==> kind == Castle
    ensures r.isEnPassant <==> kind == EnPassant
    ensures r.capturedPiece == (if kind.IsCaptureKind() then capturedPiece else None)
    ensures r.promotionPiece == (if kind.IsPromotionKind() then promotionPiece else None)
    ensures r.movingPiece == movingPiece && r.start == start && r.end == end
  {
    match kind
    case Capture => BasicMove(movingPiece, true, capturedPiece, start, end, false, false, None, false)
    case Castle => BasicMove(movingPiece, false, None, start, end, true, false, None, false)
    case PromotionWithCapture => BasicMove(movingPiece, true, capturedPiece, start, end, false, true, promotionPiece, false)
    case Promotion => BasicMove(movingPiece, false, None, start, end, false, true, promotionPiece, false)
    case EnPassant => BasicMove(movingPiece, false, None, start, end, false, false, None, true)
    case Normal => BasicMove(movingPiece, false, None, start, end, false, false, None, false)
  }

  /** The typed constructor builds a move of the kind it was given. */
  lemma {:induction false} MakeHasItsKind(kind: MoveType, movingPiece: PieceType, start: Square, end: Square,
                                          capturedPiece: Option<PieceType>, promotionPiece: Option<PieceType>)
    ensures KindOf(Make(kind, movingPiece, start, end, capturedPiece, promotionPiece)) == kind
  {
    match kind
    case Normal =>
    case Capture =>
    case Castle =>
    case Promotion =>
    case PromotionWithCapture =>
    case EnPassant =>
  }

  /** `BOOLEAN_OPTIONS[bit]`: index 1 is true. */
  function BooleanOption(bit: nat): bool
    requires bit < 2
  {
    [false, true][bit]
  }

  /**
   * The decoding constructor. Each field is the array entry at the index its
   * section holds; the moving and captured piece sections are 3 bits wide but
   * index the six piece types, so 6 and 7 throw. The captured and promotion
   * pieces are read only when their flag is set.
   */
  function Decode(compressed: Word): (r: Result<BasicMove>)
    ensures r.Success? <==> MovingPiece.GetInt(compressed) < 6 && (IsCapture.GetInt(compressed) == 1 ==> CapturePiece.GetInt(compressed) < 6)
    ensures r.Success? ==> WellFormed(r.value)
    ensures r.Success? ==> (r.value.isCapture <==> IsCapture.GetInt(compressed) == 1)
    ensures r.Success? ==> (r.value.isPromotion <==> IsPromotion.GetInt(compressed) == 1)
  {
    SmallPowers();
    PromotionPiecesAreForPromotion();
    var movingPiece :- ByIndex(MovingPiece.GetInt(compressed));
    var isCapture := BooleanOption(IsCapture.GetInt(compressed));
    var capturedPiece :- if isCapture then (var t :- ByIndex(CapturePiece.GetInt(compressed)); Success(Some(t))) else Success(None);
    var start := ByOrdinal(StartSquare.GetInt(compressed));
    var end := ByOrdinal(EndSquare.GetInt(compressed));
    var isCastle := BooleanOption(IsCastle.GetInt(compressed));
    var isPromotion := BooleanOption(IsPromotion.GetInt(compressed));
    var promotionPiece := if isPromotion then Some(PromotionPieces[PromotionType.GetInt(compressed)]) else None;
    var isEnPassant := BooleanOption(IsEnPassant.GetInt(compressed));
    Success(BasicMove(movingPiece, isCapture, capturedPiece, start, end, isCastle, isPromotion, promotionPiece, isEnPassant))
  }

  lemma PromotionPiecesAreForPromotion()
    ensures forall i :: 0 <= i < |PromotionPieces| ==> PromotionPieces[i].IsPromotionPiece()
  {
  }

  /** One step of `compress`: `compressedMove |= section.setValue(compressedMove, value)`, which is the same as the set alone. */
  function OrSet(s: Section, compressed: Word, value: int): (r: Word)
    ensures r == s.SetInt(compressed, value)
  {
    var written := s.SetInt(compressed, value);
    assert forall i :: 0 <= i < Width ==> Or(compressed, written)[i] == written[i];
    Or(compressed, written)
  }

  /** A run of `|=` steps: each pair names a section and the number written into it. */
  function SetAll(compressed: Word, writes: seq<(Section, int)>): Word
    decreases |writes|
  {
    if writes == [] then compressed
    else SetAll(OrSet(writes[0].0, compressed, writes[0].1), writes[1..])
  }

  /** The nine `|=` steps of `compress`, from 0, given the numbers each section receives. */
  function Pack(movingPiece: int, isCapture: bool, capturedPiece: int, start: int, end: int,
                isCastle: bool, isPromotion: bool, promotionIndex: int, isEnPassant: bool): Word
  {
    SetAll(FromInt(0), PackWrites(movingPiece, isCapture, capturedPiece, start, end, isCastle, isPromotion, promotionIndex, isEnPassant))
  }

  function PackWrites(movingPiece: int, isCapture: bool, capturedPiece: int, start: int, end: int,
                      isCastle: bool, isPromotion: bool, promotionIndex: int, isEnPassant: bool): seq<(Section, int)>
  {
    [(MovingPiece, movingPiece), (IsCapture, if isCapture then 1 else 0), (CapturePiece, capturedPiece),
     (StartSquare, start), (EndSquare, end), (IsCastle, if isCastle then 1 else 0),
     (IsPromotion, if isPromotion then 1 else 0), (PromotionType, promotionIndex),
     (IsEnPassant, if isEnPassant then 1 else 0)]
  }

  /** Writes to pairwise different sections, each number fitting its section. */
  predicate Disjoint(writes: seq<(Section, int)>) {
    && (forall i, j :: 0 <= i < j < |writes| ==> writes[i].0 != writes[j].0)
    && (forall i :: 0 <= i < |writes| ==> 0 <= writes[i].1 < Pow2(writes[i].0.Length()))
  }

  /** A section no step writes keeps its contents. */
  lemma {:induction false} SetAllLeaves(compressed: Word, writes: seq<(Section, int)>, t: Section)
    requires forall i :: 0 <= i < |writes| ==> writes[i].0 != t
    ensures t.GetInt(SetAll(compressed, writes)) == t.GetInt(compressed)
    decreases |writes|
  {
    if writes != [] {
      var next := OrSet(writes[0].0, compressed, writes[0].1);
      SetLeavesOthers(writes[0].0, t, compressed, FromInt(writes[0].1));
      SetAllLeaves(next, writes[1..], t);
    }
  }

  /** Each section written into a clear section reads back its number. */
  lemma {:induction false} SetAllReads(compressed: Word, writes: seq<(Section, int)>, i: nat)
    requires Disjoint(writes) && i < |writes|
    requires forall j :: 0 <= j < |writes| ==> writes[j].0.GetInt(compressed) == 0
    ensures writes[i].0.GetInt(SetAll(compressed, writes)) == writes[i].1
    decreases i
  {
    var next := OrSet(writes[0].0, compressed, writes[0].1);
    var rest := writes[1..];
    if i == 0 {
      SetGetRoundTrip(writes[0].0, compressed, writes[0].1);
      SetAllLeaves(next, rest, writes[0].0);
    } else {
      forall j | 0 <= j < |rest|
        ensures rest[j].0.GetInt(next) == 0
      {
        SetLeavesOthers(writes[0].0, rest[j].0, compressed, FromInt(writes[0].1));
      }
      SetAllReads(next, rest, i - 1);
    }
  }

  /**
   * `compress` as written: the captured and promotion pieces are dereferenced
   * unconditionally, so it throws a NullPointerException (None here) unless
   * both are present.
   */
  function CompressAsWritten(m: BasicMove): (r: Option<Word>)
    ensures r.Some? <==> m.capturedPiece.Some? && m.promotionPiece.Some?
  {
    if m.capturedPiece.None? || m.promotionPiece.None? then None
    else Some(Pack(m.movingPiece.Ordinal(), m.isCapture, m.capturedPiece.value.Ordinal(),
                   Ordinal(m.start), Ordinal(m.end), m.isCastle, m.isPromotion,
                   m.promotionPiece.value.Ordinal() - 1, m.isEnPassant))
  }

  /** Of the moves the typed constructor builds, only a promotion with capture can be compressed as written. */
  lemma CompressAsWrittenOnlyPromotionWithCapture(kind: MoveType, movingPiece: PieceType, start: Square, end: Square,
                                                  capturedPiece: Option<PieceType>, promotionPiece: Option<PieceType>)
    ensures CompressAsWritten(Make(kind, movingPiece, start, end, capturedPiece, promotionPiece)).Some?
        ==> kind == PromotionWithCapture
  {
  }

  /** `compress` as evidently intended: a missing captured or promotion piece is written as 0. */
  function Compress(m: BasicMove): (r: Word)
    ensures WellFormed(m) ==>
      && MovingPiece.GetInt(r) == m.movingPiece.Ordinal()
      && StartSquare.GetInt(r) == Ordinal(m.start)
      && EndSquare.GetInt(r) == Ordinal(m.end)
    ensures WellFormed(m) ==>
      && IsCapture.GetInt(r) == (if m.isCapture then 1 else 0)
      && IsCastle.GetInt(r) == (if m.isCastle then 1 else 0)
      && IsPromotion.GetInt(r) == (if m.isPromotion then 1 else 0)
      && IsEnPassant.GetInt(r) == (if m.isEnPassant then 1 else 0)
  {
    PackedMoveReadsBack(m);
    Pack(m.movingPiece.Ordinal(), m.isCapture, if m.capturedPiece.Some? then m.capturedPiece.value.Ordinal() else 0,
         Ordinal(m.start), Ordinal(m.end), m.isCastle, m.isPromotion,
         if m.promotionPiece.Some? then m.promotionPiece.value.Ordinal() - 1 else 0, m.isEnPassant)
  }

  /** The sections `compress` writes for a well-formed move read back its fields. */
  lemma PackedMoveReadsBack(m: BasicMove)
    ensures WellFormed(m) ==>
      var c := Pack(m.movingPiece.Ordinal(), m.isCapture, if m.capturedPiece.Some? then m.capturedPiece.value.Ordinal() else 0,
                    Ordinal(m.start), Ordinal(m.end), m.isCastle, m.isPromotion,
                    if m.promotionPiece.Some? then m.promotionPiece.value.Ordinal() - 1 else 0, m.isEnPassant);
      && MovingPiece.GetInt(c) == m.movingPiece.Ordinal()
      && StartSquare.GetInt(c) == Ordinal(m.start)
      && EndSquare.GetInt(c) == Ordinal(m.end)
      && IsCapture.GetInt(c) == (if m.isCapture then 1 else 0)
      && IsCastle.GetInt(c) == (if m.isCastle then 1 else 0)
      && IsPromotion.GetInt(c) == (if m.isPromotion then 1 else 0)
      && IsEnPassant.GetInt(c) == (if m.isEnPassant then 1 else 0)
  {
    if WellFormed(m) {
      var captured := if m.capturedPiece.Some? then m.capturedPiece.value.Ordinal() else 0;
      var promotion := if m.promotionPiece.Some? then m.promotionPiece.value.Ordinal() - 1 else 0;
      PackReadsBack(m.movingPiece.Ordinal(), m.isCapture, captured, Ordinal(m.start), Ordinal(m.end),
                    m.isCastle, m.isPromotion, promotion, m.isEnPassant);
    }
  }

  /** Where the written compression succeeds it agrees with the intended one. */
  lemma CompressAsWrittenAgrees(m: BasicMove)
    requires CompressAsWritten(m).Some?
    ensures CompressAsWritten(m) == Some(Compress(m))
  {
  }

  /** Each section of a packed move reads back the number written into it, when every number fits its section. */
  lemma PackReadsBack(movingPiece: nat, isCapture: bool, capturedPiece: nat, start: nat, end: nat,
                      isCastle: bool, isPromotion: bool, promotionIndex: nat, isEnPassant: bool)
    requires movingPiece < 8 && capturedPiece < 8 && start < 64 && end < 64 && promotionIndex < 4
    ensures var c := Pack(movingPiece, isCapture, capturedPiece, start, end, isCastle, isPromotion, promotionIndex, isEnPassant);
      && MovingPiece.GetInt(c) == movingPiece
      && IsCapture.GetInt(c) == (if isCapture then 1 else 0)
      && CapturePiece.GetInt(c) == capturedPiece
      && StartSquare.GetInt(c) == start
      && EndSquare.GetInt(c) == end
      && IsCastle.GetInt(c) == (if isCastle then 1 else 0)
      && IsPromotion.GetInt(c) == (if isPromotion then 1 else 0)
      && PromotionType.GetInt(c) == promotionIndex
      && IsEnPassant.GetInt(c) == (if isEnPassant then 1 else 0)
  {
    ZeroWordReadsZero();
    var writes := PackWrites(movingPiece, isCapture, capturedPiece, start, end, isCastle, isPromotion, promotionIndex, isEnPassant);
    PackWritesDisjoint(movingPiece, isCapture, capturedPiece, start, end, isCastle, isPromotion, promotionIndex, isEnPassant);
    forall i | 0 <= i < |writes|
      ensures writes[i].0.GetInt(SetAll(FromInt(0), writes)) == writes[i].1
    {
      SetAllReads(FromInt(0), writes, i);
    }
    assert writes[0].0 == MovingPiece && writes[1].0 == IsCapture && writes[2].0 == CapturePiece;
    assert writes[3].0 == StartSquare && writes[4].0 == EndSquare && writes[5].0 == IsCastle;
    assert writes[6].0 == IsPromotion && writes[7].0 == PromotionType && writes[8].0 == IsEnPassant;
  }

  /** The nine writes of `compress` go to different sections, each number fitting its section. */
  lemma PackWritesDisjoint(movingPiece: nat, isCapture: bool, capturedPiece: nat, start: nat, end: nat,
                           isCastle: bool, isPromotion: bool, promotionIndex: nat, isEnPassant: bool)
    requires movingPiece < 8 && capturedPiece < 8 && start < 64 && end < 64 && promotionIndex < 4
    ensures Disjoint(PackWrites(movingPiece, isCapture, capturedPiece, start, end, isCastle, isPromotion, promotionIndex, isEnPassant))
  {
    var writes := PackWrites(movingPiece, isCapture, capturedPiece, start, end, isCastle, isPromotion, promotionIndex, isEnPassant);
    assert forall i :: 0 <= i < |writes| ==> writes[i].0.Ordinal() == i;
    SmallPowers();
    assert forall i :: 0 <= i < |writes| ==> 0 <= writes[i].1 < Pow2(writes[i].0.Length());
  }

  lemma ZeroWordReadsZero()
    ensures forall t: Section :: t.GetInt(FromInt(0)) == 0
  {
    forall t: Section ensures t.GetInt(FromInt(0)) == 0 {
      ZeroWord();
      AllClearIsZero(t.GetValue(FromInt(0)));
    }
  }

  /** Decoding the compression of a well-formed move gives the move back. */
  lemma DecodeCompress(m: BasicMove)
    requires WellFormed(m)
    ensures Decode(Compress(m)) == Success(m)
  {
    var captured := if m.capturedPiece.Some? then m.capturedPiece.value.Ordinal() else 0;
    var promotion := if m.promotionPiece.Some? then m.promotionPiece.value.Ordinal() - 1 else 0;
    if m.promotionPiece.Some? {
      PromotionPiecesExactly(m.promotionPiece.value);
    }
    PackReadsBack(m.movingPiece.Ordinal(), m.isCapture, captured, Ordinal(m.start), Ordinal(m.end),
                  m.isCastle, m.isPromotion, promotion, m.isEnPassant);
    ByIndexOfOrdinal(m.movingPiece);
    if m.capturedPiece.Some? {
      ByIndexOfOrdinal(m.capturedPiece.value);
    }
    OrdinalRoundTrip(m.start);
    OrdinalRoundTrip(m.end);
  }

  /** `argCheck`: throws unless `toCheck == expected` is `shouldEqual`. */
  function ArgCheck(toCheck: Option<PieceType>, expected: Option<PieceType>, shouldEqual: bool): (r: Outcome)
    ensures r.Pass? <==> (toCheck == expected) == shouldEqual
  {
    if (toCheck == expected) != shouldEqual then Fail("null expected") else Pass
  }

  /** `BasicMove.Builder`: the fields of a move under construction. */
  class MoveBuilder {
    var start: Square
    var end: Square
    var movingPiece: PieceType
    var kind: MoveType
    var capturedPiece: Option<PieceType>
    var promotionPiece: Option<PieceType>

    /** A promotion piece, once set, is one a pawn can become. */
    predicate Valid()
      reads this
    {
      promotionPiece.Some? ==> promotionPiece.value.IsPromotionPiece()
    }

    /** The field assignments of the constructor; an en passant records a captured pawn. */
    constructor (kind: MoveType, movingPiece: PieceType, start: Square, end: Square)
      ensures this.kind == kind && this.movingPiece == movingPiece && this.start == start && this.end == end
      ensures capturedPiece == (if kind == EnPassant then Some(Pawn) else None)
      ensures promotionPiece == None
      ensures Valid()
    {
      this.kind := kind;
      this.movingPiece := movingPiece;
      this.start := start;
      this.end := end;
      capturedPiece := if kind == EnPassant then Some(Pawn) else None;
      promotionPiece := None;
    }

    /**
     * `withCapture` as written: the check `argCheck(capturedPiece, null, false)`
     * throws exactly when no captured piece is set yet, so it throws on every
     * first call; once a piece is set, it throws unless the kind is a capture.
     */
    method WithCaptureAsWritten(captured: PieceType) returns (r: Outcome)
      modifies this
      ensures old(capturedPiece).None? ==> r.Fail?
      ensures r.Pass? <==> old(capturedPiece).Some? && kind.IsCaptureKind()
      ensures r.Pass? ==> capturedPiece == Some(captured)
      ensures r.Fail? ==> unchanged(this)
      ensures kind == old(kind) && promotionPiece == old(promotionPiece)
      ensures start == old(start) && end == old(end) && movingPiece == old(movingPiece)
    {
      r := ArgCheck(capturedPiece, None, false);
      if r.Fail? {
        return;
      }
      if kind.IsCaptureKind() {
        capturedPiece := Some(captured);
      } else {
        r := Fail("This move type cannot involve capture");
      }
    }

    /** `withPromotion` as written: for the same reason it throws on every first call. */
    method WithPromotionAsWritten(promotion: PieceType) returns (r: Outcome)
      modifies this
      ensures old(promotionPiece).None? ==> r.Fail?
      ensures r.Pass? <==> old(promotionPiece).Some? && kind.IsPromotionKind() && promotion.IsPromotionPiece()
      ensures r.Pass? ==> promotionPiece == Some(promotion)
      ensures r.Fail? ==> unchanged(this)
      ensures kind == old(kind) && capturedPiece == old(capturedPiece)
      ensures start == old(start) && end == old(end) && movingPiece == old(movingPiece)
    {
      r := ArgCheck(promotionPiece, None, false);
      if r.Fail? {
        return;
      }
      if kind.IsPromotionKind() && promotion.IsPromotionPiece() {
        promotionPiece := Some(promotion);
      } else {
        r := Fail("This move cannot involve promoting");
      }
    }

    /** `withCapture` as evidently intended: it throws if a piece is already set or the kind is not a capture. */
    method WithCapture(captured: PieceType) returns (r: Outcome)
      modifies this
      requires Valid()
      ensures Valid()
      ensures r.Pass? <==> old(capturedPiece).None? && kind.IsCaptureKind()
      ensures r.Pass? ==> capturedPiece == Some(captured)
      ensures r.Fail? ==> unchanged(this)
      ensures kind == old(kind) && promotionPiece == old(promotionPiece)
      ensures start == old(start) && end == old(end) && movingPiece == old(movingPiece)
    {
      r := ArgCheck(capturedPiece, None, true);
      if r.Fail? {
        return;
      }
      if kind.IsCaptureKind() {
        capturedPiece := Some(captured);
      } else {
        r := Fail("This move type cannot involve capture");
      }
    }

    /** `withPromotion` as evidently intended: it throws on a repeated call, a kind that is not a promotion, or a piece a pawn cannot become. */
    method WithPromotion(promotion: PieceType) returns (r: Outcome)
      modifies this
      requires Valid()
      ensures Valid()
      ensures r.Pass? <==> old(promotionPiece).None? && kind.IsPromotionKind() && promotion.IsPromotionPiece()
      ensures r.Pass? ==> promotionPiece == Some(promotion)
      ensures r.Fail? ==> unchanged(this)
      ensures kind == old(kind) && capturedPiece == old(capturedPiece)
      ensures start == old(start) && end == old(end) && movingPiece == old(movingPiece)
    {
      r := ArgCheck(promotionPiece, None, true);
      if r.Fail? {
        return;
      }
      if kind.IsPromotionKind() && promotion.IsPromotionPiece() {
        promotionPiece := Some(promotion);
      } else {
        r := Fail("This move cannot involve promoting");
      }
    }

    /**
     * `build`: a promotion needs its piece and a capture its captured piece;
     * an en passant ends with no captured piece. The result is a well-formed
     * move of the builder's kind.
     */
    method Build() returns (r: Result<BasicMove>)
      requires Valid()
      ensures r.Success? <==> (kind.IsPromotionKind() ==> promotionPiece.Some?) && (kind.IsCaptureKind() ==> capturedPiece.Some?)
      ensures r.Success? ==> WellFormed(r.value) && KindOf(r.value) == kind
      ensures r.Success? ==> r.value.movingPiece == movingPiece && r.value.start == start && r.value.end == end
      ensures r.Success? && kind.IsCaptureKind() ==> r.value.capturedPiece == capturedPiece
      ensures r.Success? && kind.IsPromotionKind() ==> r.value.promotionPiece == promotionPiece
    {
      var promotionArg: Option<PieceType> := None;
      var capturedArg: Option<PieceType> := None;
      if kind.IsPromotionKind() {
        if promotionPiece.None? {
          return Failure("A promotion must involve promoting a to piece");
        }
        promotionArg := promotionPiece;
      }
      if kind.IsCaptureKind() {
        if capturedPiece.None? {
          return Failure("A capture must involve capturing a piece");
        }
        capturedArg := capturedPiece;
      }
      var m := Make(kind, movingPiece, start, end, capturedArg, promotionArg);
      MakeHasItsKind(kind, movingPiece, start, end, capturedArg, promotionArg);
      return Success(m);
    }
  }

  /**
   * The constructor `Builder(type, movingPiece, start, end)` with its checks: a
   * castle must move the king, and an en passant or a promotion a pawn; it
   * throws otherwise.
   */
  method NewMoveBuilder(kind: MoveType, movingPiece: PieceType, start: Square, end: Square) returns (r: Result<MoveBuilder>)
    ensures r.Success? <==> (kind == Castle ==> movingPiece == King) && (kind == EnPassant || kind.IsPromotionKind() ==> movingPiece == Pawn)
    ensures r.Success? ==> fresh(r.value) && r.value.Valid() && r.value.kind == kind && r.value.movingPiece == movingPiece
    ensures r.Success? ==> r.value.start == start && r.value.end == end && r.value.promotionPiece.None?
    ensures r.Success? ==> r.value.capturedPiece == (if kind == EnPassant then Some(Pawn) else None)
  {
    var b := new MoveBuilder(kind, movingPiece, start, end);
    var check := Pass;
    if kind == Castle {
      check := ArgCheck(Some(movingPiece), Some(King), true);
    } else if kind == EnPassant || kind.IsPromotionKind() {
      check := ArgCheck(Some(movingPiece), Some(Pawn), true);
    }
    if check.Fail? {
      return Failure("The move type does not fit the moving piece");
    }
    return Success(b);
  }

  /** As written, no capture can be built: the first `withCapture` on a fresh capture builder throws. */
  method CaptureCannotBeBuiltAsWritten(movingPiece: PieceType, start: Square, end: Square, captured: PieceType) returns (r: Outcome)
    ensures r.Fail?
  {
    var b := new MoveBuilder(Capture, movingPiece, start, end);
    r := b.WithCaptureAsWritten(captured);
  }

  /** As written, no promotion can be built: the first `withPromotion` on a fresh promotion builder throws. */
  method PromotionCannotBeBuiltAsWritten(start: Square, end: Square, promotion: PieceType) returns (r: Outcome)
    ensures r.Fail?
  {
    var b := new MoveBuilder(Promotion, Pawn, start, end);
    r := b.WithPromotionAsWritten(promotion);
  }

  /** With the intended checks, a fresh capture builder takes a captured piece and builds a well-formed capture holding it. */
  method CaptureIsBuilt(movingPiece: PieceType, start: Square, end: Square, captured: PieceType) returns (r: Result<BasicMove>)
    ensures r.Success? && r.value.isCapture && r.value.capturedPiece == Some(captured) && WellFormed(r.value)
  {
    var b := new MoveBuilder(Capture, movingPiece, start, end);
    var ok := b.WithCapture(captured);
    r := b.Build();
  }
}
