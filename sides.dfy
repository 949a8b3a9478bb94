/** `boardFeatures.Side`: the kingside (files e-h) and the queenside (files a-d). */
module Sides {
  import opened Squares

  datatype Side = Kingside | Queenside {
    function Ordinal(): int {
      match this
      case Kingside => 0
      case Queenside => 1
    }

    predicate IsKingside() {
      Ordinal() == 0
    }

    /** `getRookFile`: the edge file of this side, where its rook starts. */
    function RookFile(): (f: Coord)
      ensures IsOnThisSide(Square(f, 0))
      ensures f == 0 || f == 7
      ensures IsKingside() <==> f == 7
    {
      if IsKingside() then 7 else 0
    }

    /** `isOnThisSide`: files 4 to 7 for the kingside, 0 to 3 for the queenside. */
    predicate IsOnThisSide(s: Square) {
      s.file >= (if IsKingside() then 4 else 0) && s.file <= (if IsKingside() then 7 else 3)
    }
  }

  function ByBoolean(isKingside: bool): (s: Side)
    ensures s.IsKingside() == isKingside
  {
    if isKingside then Kingside else Queenside
  }

  /** `getByRelation`: the side a square is on. */
  function ByRelation(s: Square): (side: Side)
    ensures side.IsOnThisSide(s)
    ensures side.IsKingside() <==> s.file > 3
  {
    ByBoolean(s.file > 3)
  }

  lemma ExactlyOneSide(s: Square)
    ensures Kingside.IsOnThisSide(s) != Queenside.IsOnThisSide(s)
    ensures forall side: Side :: side.IsOnThisSide(s) <==> side == ByRelation(s)
  {
  }
}
