/**
 * `pieceUtilities.Knight`: the squares a knight attacks are its eight jumps
 * that stay on the board, wrapped in an evenly spaced circle around the
 * knight.
 */
module Knights {
  import opened Wrappers
  import opened Squares
  import opened SixteenthSectors
  import opened EvenlySpacedCircles
  import Seqs

  /** `KNIGHT_MOVE_OFFSETS`: (file offset, rank offset) pairs, clockwise from two files right and one rank up. */
  const KnightMoveOffsets: seq<(int, int)> := [(2, 1), (2, -1), (1, -2), (-1, -2), (-2, -1), (-2, 1), (-1, 2), (1, 2)]

  /** A knight's jump: one step along one axis and two along the other. */
  predicate IsKnightJump(df: int, dr: int) {
    (Abs(df) == 1 && Abs(dr) == 2) || (Abs(df) == 2 && Abs(dr) == 1)
  }

  /** The offsets are the eight knight jumps, each once. */
  lemma OffsetsAreKnightJumps()
    ensures |KnightMoveOffsets| == 8 && Seqs.Distinct(KnightMoveOffsets)
    ensures forall df, dr :: (df, dr) in KnightMoveOffsets <==> IsKnightJump(df, dr)
  {
    forall df, dr | IsKnightJump(df, dr)
      ensures (df, dr) in KnightMoveOffsets
    {
      if Abs(df) == 1 {
        assert df == 1 || df == -1;
        assert dr == 2 || dr == -2;
      } else {
        assert df == 2 || df == -2;
        assert dr == 1 || dr == -1;
      }
    }
  }

  /** The squares reached from `from` by each offset in turn, skipping those off the board. */
  function JumpsFrom(from: Square, offsets: seq<(int, int)>): (r: seq<Square>)
    ensures |r| <= |offsets|
    ensures forall s :: s in r ==> (s.file - from.file, s.rank - from.rank) in offsets
  {
    if offsets == [] then []
    else
      var rest := JumpsFrom(from, offsets[1..]);
      match ByOffset(from, offsets[0].0, offsets[0].1)
      case Some(s) => [s] + rest
      case None => rest
  }

  /** No on-board jump is skipped. */
  lemma {:induction false} JumpsFromComplete(from: Square, offsets: seq<(int, int)>, k: nat)
    requires k < |offsets| && OnBoard(from.file + offsets[k].0, from.rank + offsets[k].1)
    ensures Square(from.file + offsets[k].0, from.rank + offsets[k].1) in JumpsFrom(from, offsets)
  {
    if k > 0 {
      assert offsets[1..][k - 1] == offsets[k];
      JumpsFromComplete(from, offsets[1..], k - 1);
    }
  }

  /** The on-board jumps of a knight on `from`, in the order of the offsets. */
  function Jumps(from: Square): seq<Square> {
    JumpsFrom(from, KnightMoveOffsets)
  }

  /** The position of a knight's jump among the offsets. */
  function JumpIndex(df: int, dr: int): (k: nat)
    requires IsKnightJump(df, dr)
    ensures k < |KnightMoveOffsets| && KnightMoveOffsets[k] == (df, dr)
  {
    if df == 2 && dr == 1 then 0
    else if df == 2 then 1
    else if df == 1 && dr == -2 then 2
    else if df == -1 && dr == -2 then 3
    else if df == -2 && dr == -1 then 4
    else if df == -2 then 5
    else if df == -1 then 6
    else 7
  }

  /** Each offset is a knight's jump. */
  lemma OffsetIsKnightJump(o: (int, int))
    requires o in KnightMoveOffsets
    ensures IsKnightJump(o.0, o.1)
  {
  }

  /** Every jump is a knight's jump away. */
  lemma JumpIsKnightJump(from: Square, s: Square)
    requires s in Jumps(from)
    ensures IsKnightJump(s.file - from.file, s.rank - from.rank)
  {
    OffsetIsKnightJump((s.file - from.file, s.rank - from.rank));
  }

  /** Every square a knight's jump away is a jump. */
  lemma KnightJumpIsJump(from: Square, s: Square)
    requires IsKnightJump(s.file - from.file, s.rank - from.rank)
    ensures s in Jumps(from)
  {
    var k := JumpIndex(s.file - from.file, s.rank - from.rank);
    JumpsFromComplete(from, KnightMoveOffsets, k);
  }

  /** The jumps are exactly the squares a knight's jump away, at most eight of them. */
  lemma JumpsExactly(from: Square, s: Square)
    ensures |Jumps(from)| <= 8
    ensures s in Jumps(from) <==> IsKnightJump(s.file - from.file, s.rank - from.rank)
  {
    if s in Jumps(from) {
      JumpIsKnightJump(from, s);
    }
    if IsKnightJump(s.file - from.file, s.rank - from.rank) {
      KnightJumpIsJump(from, s);
    }
  }

  /** Distinct offsets give distinct squares. */
  lemma {:induction false} JumpsFromDistinct(from: Square, offsets: seq<(int, int)>)
    requires Seqs.Distinct(offsets)
    ensures Seqs.Distinct(JumpsFrom(from, offsets))
  {
    if offsets != [] {
      var tail := offsets[1..];
      assert Seqs.Distinct(tail) by {
        forall i, j | 0 <= i < j < |tail| ensures tail[i] != tail[j] {
          assert tail[i] == offsets[i + 1] && tail[j] == offsets[j + 1];
        }
      }
      JumpsFromDistinct(from, tail);
      var rest := JumpsFrom(from, tail);
      match ByOffset(from, offsets[0].0, offsets[0].1)
      case None =>
      case Some(s) =>
        assert offsets[0] !in tail;
        assert s !in rest;
        var r := [s] + rest;
        forall i, j | 0 <= i < j < |r| ensures r[i] != r[j] {
          assert r[j] == rest[j - 1];
          if i > 0 {
            assert r[i] == rest[i - 1];
          }
        }
    }
  }

  /** The eight offsets lie in eight different sectors: the odd ones, the wedges between the lines. */
  lemma OffsetSectorsDistinct(o: (int, int), p: (int, int))
    requires o in KnightMoveOffsets && p in KnightMoveOffsets && o != p
    ensures o != (0, 0)
    ensures IsBetweenLines(SectorOf(o.0, o.1))
    ensures SectorOf(o.0, o.1) != SectorOf(p.0, p.1)
  {
  }

  /** Two different jumps lie in different sectors around the knight, neither on the knight's square. */
  lemma JumpSectorsDistinct(from: Square, a: Square, b: Square)
    requires a in Jumps(from) && b in Jumps(from) && a != b
    ensures a != from
    ensures SectorOfSquare(from, a) != SectorOfSquare(from, b)
  {
    OffsetSectorsDistinct((a.file - from.file, a.rank - from.rank), (b.file - from.file, b.rank - from.rank));
  }

  /** No jump is the knight's own square. */
  lemma JumpAwayFrom(from: Square, a: Square)
    requires a in Jumps(from)
    ensures a != from
  {
    JumpIsKnightJump(from, a);
  }

  /** The jumps are a ring the circle accepts: at most eight, none on the knight's square, one per sector. */
  lemma JumpsPlaceable(from: Square)
    ensures Placeable(from, Jumps(from))
  {
    var r := Jumps(from);
    OffsetsAreKnightJumps();
    JumpsFromDistinct(from, KnightMoveOffsets);
    forall i | 0 <= i < |r|
      ensures r[i] != from
    {
      JumpAwayFrom(from, r[i]);
    }
    forall i, j | 0 <= i < j < |r|
      ensures SectorOfSquare(from, r[i]) != SectorOfSquare(from, r[j])
    {
      JumpSectorsDistinct(from, r[i], r[j]);
    }
  }

  /**
   * `calculatePossibleSquaresToThreaten`: the on-board jumps, wrapped in a
   * circle around the knight; the circle's constructor never throws on them
   * and iterates them in offset order.
   */
  method PossibleSquaresToThreaten(from: Square) returns (r: seq<Square>)
    ensures |r| <= 8
    ensures forall s :: s in r <==> IsKnightJump(s.file - from.file, s.rank - from.rank)
    ensures forall i, j :: 0 <= i < j < |r| ==> r[i] != r[j]
  {
    var possibleJumps := Jumps(from);
    JumpsPlaceable(from);
    var circle := NewEvenlySpacedCircle(from, possibleJumps);
    r := circle.value.Iterate();
    forall s
      ensures s in r <==> IsKnightJump(s.file - from.file, s.rank - from.rank)
    {
      JumpsExactly(from, s);
    }
  }
}
