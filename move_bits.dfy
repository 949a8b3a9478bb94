/**
 * `moves.MoveBitStringSection`: the layout of a move packed into a Java `int`.
 * Each section is `length` bits starting at bit `startBit` (bit 0 is the least
 * significant). The `int` is a `Word` of 32 bits.
 */
module MoveBitSections {
  import opened Wrappers
  import opened Words

  datatype Section =
    | MovingPiece | IsCapture | CapturePiece | StartSquare | EndSquare
    | IsCastle | IsPromotion | PromotionType | IsEnPassant | ColorBit
    | PreviousEnPassantPermissions | PreviousEnPassantFile
    | KingsideCastleDisallowed | QueensideCastleDisallowed | EnemyCastlingPrevented
  {
    function Ordinal(): int {
      match this
      case MovingPiece => 0
      case IsCapture => 1
      case CapturePiece => 2
      case StartSquare => 3
      case EndSquare => 4
      case IsCastle => 5
      case IsPromotion => 6
      case PromotionType => 7
      case IsEnPassant => 8
      case ColorBit => 9
      case PreviousEnPassantPermissions => 10
      case PreviousEnPassantFile => 11
      case KingsideCastleDisallowed => 12
      case QueensideCastleDisallowed => 13
      case EnemyCastlingPrevented => 14
    }

    function StartBit(): nat {
      match this
      case MovingPiece => 0
      case IsCapture => 3
      case CapturePiece => 4
      case StartSquare => 7
      case EndSquare => 13
      case IsCastle => 19
      case IsPromotion => 20
      case PromotionType => 21
      case IsEnPassant => 23
      case ColorBit => 24
      case PreviousEnPassantPermissions => 25
      case PreviousEnPassantFile => 26
      case KingsideCastleDisallowed => 29
      case QueensideCastleDisallowed => 30
      case EnemyCastlingPrevented => 31
    }

    function Length(): nat {
      match this
      case MovingPiece => 3
      case IsCapture => 1
      case CapturePiece => 3
      case StartSquare => 6
      case EndSquare => 6
      case IsCastle => 1
      case IsPromotion => 1
      case PromotionType => 2
      case IsEnPassant => 1
      case ColorBit => 1
      case PreviousEnPassantPermissions => 1
      case PreviousEnPassantFile => 3
      case KingsideCastleDisallowed => 1
      case QueensideCastleDisallowed => 1
      case EnemyCastlingPrevented => 1
    }

    /** `lengthMask`: all ones shifted right by `32 - length`, so exactly the low `length` bits are set. */
    function LengthMask(): (r: Word)
      ensures forall i :: 0 <= i < Width ==> (r[i] <==> i < Length())
    {
      SectionFits(this);
      ZeroBits(Width);
      ShiftRight(Not(FromInt(0)), Width - Length())
    }

    /** The bits this section occupies: `length` bits from `startBit`. */
    predicate InField(i: int) {
      StartBit() <= i < StartBit() + Length()
    }

    /**
     * `setValue(receptacle, int)`: mask the value to the section's width and OR
     * it in at the start bit. Bits outside the section are unchanged; a bit
     * inside it is set if it was set before or the value has it.
     */
    function SetValue(receptacle: Word, value: Word): (r: Word)
      ensures forall i :: 0 <= i < Width && !InField(i) ==> r[i] == receptacle[i]
      ensures forall i :: 0 <= i < Width && InField(i) ==> r[i] == (receptacle[i] || value[i - StartBit()])
    {
      SectionFits(this);
      Or(receptacle, ShiftLeft(And(LengthMask(), value), StartBit()))
    }

    /** The `int` overload, with the value's two's complement bits. */
    function SetInt(receptacle: Word, value: int): Word {
      SetValue(receptacle, FromInt(value))
    }

    /** `setValue(receptacle, boolean)`: 1 for true, 0 for false. */
    function SetBool(receptacle: Word, value: bool): Word {
      SetInt(receptacle, if value then 1 else 0)
    }

    /** `setValue(receptacle, Enum)`: the ordinal, or 0 for null. */
    function SetOrdinal(receptacle: Word, ordinal: Option<nat>): Word {
      SetInt(receptacle, if ordinal.None? then 0 else ordinal.value)
    }

    /** `getValue`: shift the section down to bit 0 and mask it to the section's width. */
    function GetValue(receptacle: Word): (r: Word)
      ensures forall i :: 0 <= i < Width ==> r[i] == (i < Length() && receptacle[StartBit() + i])
    {
      SectionFits(this);
      And(ShiftRight(receptacle, StartBit()), LengthMask())
    }

    /** The value of `getValue` as a number, which is always below 2^length. */
    function GetInt(receptacle: Word): (r: nat)
      ensures r < Pow2(Length())
    {
      ToNatBelow(GetValue(receptacle), Length());
      ToNat(GetValue(receptacle))
    }
  }

  const Values: seq<Section> := [MovingPiece, IsCapture, CapturePiece, StartSquare, EndSquare,
    IsCastle, IsPromotion, PromotionType, IsEnPassant, ColorBit,
    PreviousEnPassantPermissions, PreviousEnPassantFile,
    KingsideCastleDisallowed, QueensideCastleDisallowed, EnemyCastlingPrevented]

  lemma SectionFits(s: Section)
    ensures 1 <= s.Length() && s.StartBit() + s.Length() <= Width
  {
  }

  /** The fifteen sections tile the 32 bits: they start at bit 0, each begins where the previous ends, and the last ends at bit 32. */
  lemma Layout()
    ensures Values[0].StartBit() == 0
    ensures forall i :: 0 <= i < |Values| - 1 ==> Values[i].StartBit() + Values[i].Length() == Values[i + 1].StartBit()
    ensures Values[|Values| - 1].StartBit() + Values[|Values| - 1].Length() == Width
  {
  }

  /** Two different sections occupy disjoint bit ranges. */
  lemma {:induction false} RangesDisjoint(s: Section, t: Section)
    requires s != t
    ensures s.StartBit() + s.Length() <= t.StartBit() || t.StartBit() + t.Length() <= s.StartBit()
  {
    assert s.Ordinal() < t.Ordinal() ==> s.StartBit() + s.Length() <= t.StartBit();
    assert t.Ordinal() < s.Ordinal() ==> t.StartBit() + t.Length() <= s.StartBit();
  }

  /** The boolean overload writes a single 1 or 0. */
  lemma SetBoolReadsBack(s: Section, receptacle: Word, value: bool)
    requires s.GetInt(receptacle) == 0
    ensures s.GetInt(s.SetBool(receptacle, value)) == if value then 1 else 0
  {
    SectionFits(s);
    SetGetRoundTrip(s, receptacle, if value then 1 else 0);
  }

  /** The enum overload writes the ordinal, or 0 for null. */
  lemma SetOrdinalReadsBack(s: Section, receptacle: Word, ordinal: Option<nat>)
    requires s.GetInt(receptacle) == 0
    requires ordinal.Some? ==> ordinal.value < Pow2(s.Length())
    ensures s.GetInt(s.SetOrdinal(receptacle, ordinal)) == if ordinal.None? then 0 else ordinal.value
  {
    SetGetRoundTrip(s, receptacle, if ordinal.None? then 0 else ordinal.value);
  }

  /** Into an empty section, setting a value that fits and reading it back gives the value. */
  lemma SetGetRoundTrip(s: Section, receptacle: Word, value: nat)
    requires s.GetInt(receptacle) == 0
    requires value < Pow2(s.Length())
    ensures s.GetInt(s.SetInt(receptacle, value)) == value
  {
    SectionFits(s);
    ZeroMeansClear(s.GetValue(receptacle));
    SmallInt(value, s.Length());
    var v := FromInt(value);
    var got := s.GetValue(s.SetInt(receptacle, value));
    assert forall i :: 0 <= i < Width ==> got[i] == v[i] by {
      forall i | 0 <= i < Width ensures got[i] == v[i] {
        if i < s.Length() {
          assert s.GetValue(receptacle)[i] == receptacle[s.StartBit() + i];
        }
      }
    }
    assert got == v;
  }

  /** Setting one section leaves the value of every other section as it was. */
  lemma SetLeavesOthers(s: Section, t: Section, receptacle: Word, value: Word)
    requires s != t
    ensures t.GetValue(s.SetValue(receptacle, value)) == t.GetValue(receptacle)
  {
    RangesDisjoint(s, t);
    SectionFits(t);
    var after := t.GetValue(s.SetValue(receptacle, value));
    var before := t.GetValue(receptacle);
    assert forall i :: 0 <= i < Width ==> after[i] == before[i] by {
      forall i | 0 <= i < Width ensures after[i] == before[i] {
        if i < t.Length() {
          assert !s.InField(t.StartBit() + i);
        }
      }
    }
  }
}
