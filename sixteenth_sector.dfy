/**
 * `boardFeatures.SixteenthSector`: the sixteen sectors a circle around a square
 * is cut into, numbered clockwise from straight up. Even sectors are the eight
 * lines (file, rank and diagonals) leaving the centre, odd sectors the wedges
 * between two neighbouring lines.
 */
module SixteenthSectors {
  import opened Wrappers
  import opened Squares

  /** A sector is identified by its ordinal: 0 UP, 1 UP_UP_RIGHT, 2 UP_RIGHT, ... 15 LEFT_UP_UP. */
  type Sector = i: int | 0 <= i < 16

  /** The sector of a step (fd, rd) with fd >= 0 and rd > 0, inside the quarter from UP to just before RIGHT. */
  function InFirstQuarter(fd: int, rd: int): int
    requires fd >= 0 && rd > 0
  {
    if fd == 0 then 0 else if fd < rd then 1 else if fd == rd then 2 else 3
  }

  /**
   * The sector of a non-zero step, defined independently of the source's
   * reflect-and-swap steps: turn the step by a whole number k of quarter turns
   * into the first quarter, and add 4k.
   */
  function SectorOf(fd: int, rd: int): Sector
    requires fd != 0 || rd != 0
  {
    if fd >= 0 && rd > 0 then InFirstQuarter(fd, rd)
    else if fd > 0 && rd <= 0 then 4 + InFirstQuarter(-rd, fd)
    else if fd <= 0 && rd < 0 then 8 + InFirstQuarter(-fd, -rd)
    else 12 + InFirstQuarter(rd, -fd)
  }

  predicate OnLine(fd: int, rd: int) {
    fd == 0 || rd == 0 || Abs(fd) == Abs(rd)
  }

  predicate IsBetweenLines(s: Sector) {
    s % 2 == 1
  }

  /**
   * `getByIncrements`: the sector containing the step (fileDifference,
   * rankDifference); a zero step throws.
   */
  method ByIncrements(fileDifference: int, rankDifference: int) returns (r: Result<Sector>)
    ensures r.Failure? <==> fileDifference == 0 && rankDifference == 0
    ensures r.Success? ==> r.value == SectorOf(fileDifference, rankDifference)
  {
    if fileDifference == 0 && rankDifference == 0 {
      return Failure("Expected a non zero increment");
    }
    var fd, rd := fileDifference, rankDifference;
    var ordinal := 0;
    if fd < 0 || (fd == 0 && rd < 0) {
      ordinal := 8;
      fd := fd * -1;
      rd := rd * -1;
    }
    if rd <= 0 {
      ordinal := ordinal + 4;
      var tmp := fd;
      fd := -1 * rd;
      rd := tmp;
    }
    if rd <= fd {
      ordinal := ordinal + 2;
      fd := fd - rd;
    }
    if fd > 0 {
      ordinal := ordinal + 1;
    }
    return Success(ordinal);
  }

  /** `getRelation`: the sector of `remote` seen from `center`, from the differences remote - center. */
  method Relation(center: Square, remote: Square) returns (r: Result<Sector>)
    ensures r.Failure? <==> center == remote
    ensures r.Success? ==> r.value == SectorOf(remote.file - center.file, remote.rank - center.rank)
  {
    r := ByIncrements(remote.file - center.file, remote.rank - center.rank);
  }

  /** The offsets written beside each sector's declaration fall in that sector. */
  lemma DeclaredOffsets()
    ensures SectorOf(0, 1) == 0 && SectorOf(1, 2) == 1 && SectorOf(1, 1) == 2 && SectorOf(2, 1) == 3
    ensures SectorOf(1, 0) == 4 && SectorOf(2, -1) == 5 && SectorOf(1, -1) == 6 && SectorOf(1, -2) == 7
    ensures SectorOf(0, -1) == 8 && SectorOf(-1, -2) == 9 && SectorOf(-1, -1) == 10 && SectorOf(-2, -1) == 11
    ensures SectorOf(-1, 0) == 12 && SectorOf(-2, 1) == 13 && SectorOf(-1, 1) == 14 && SectorOf(-1, 2) == 15
  {
  }

  /** A step lies on one of the eight lines exactly when its sector is even. */
  lemma BetweenLinesIffOdd(fd: int, rd: int)
    requires fd != 0 || rd != 0
    ensures IsBetweenLines(SectorOf(fd, rd)) <==> !OnLine(fd, rd)
  {
  }

  /** Turning a step a quarter turn clockwise moves it four sectors on. */
  lemma QuarterTurn(fd: int, rd: int)
    requires fd != 0 || rd != 0
    ensures SectorOf(rd, -fd) == (SectorOf(fd, rd) + 4) % 16
  {
  }

  /** Reversing a step moves it eight sectors on. */
  lemma HalfTurn(fd: int, rd: int)
    requires fd != 0 || rd != 0
    ensures SectorOf(-fd, -rd) == (SectorOf(fd, rd) + 8) % 16
  {
    QuarterTurn(fd, rd);
    QuarterTurn(rd, -fd);
  }

  /** Stretching a step does not change its sector. */
  lemma ScaleInvariant(fd: int, rd: int, k: int)
    requires fd != 0 || rd != 0
    requires k > 0
    ensures k * fd != 0 || k * rd != 0
    ensures SectorOf(k * fd, k * rd) == SectorOf(fd, rd)
  {
    assert fd < rd <==> k * fd < k * rd;
    assert fd == rd <==> k * fd == k * rd;
    assert -fd < rd <==> k * -fd < k * rd;
    assert fd < -rd <==> k * fd < k * -rd;
    assert -fd == rd <==> k * -fd == k * rd;
    assert fd > 0 <==> k * fd > 0;
    assert rd > 0 <==> k * rd > 0;
    assert fd == 0 <==> k * fd == 0;
    assert rd == 0 <==> k * rd == 0;
    assert -rd < fd <==> k * -rd < k * fd;
    assert -rd < -fd <==> k * -rd < k * -fd;
    assert rd < -fd <==> k * rd < k * -fd;
  }

  /**
   * The value the static initialiser stores as `nearestSectors`: for a wedge,
   * the single diagonal of its quarter; for a line, the two wedges beside it.
   */
  function NearestSectors(s: Sector): (r: seq<Sector>)
    ensures IsBetweenLines(s) ==> |r| == 1 && r[0] % 4 == 2 && r[0] / 4 == s / 4
    ensures !IsBetweenLines(s) ==> |r| == 2 && IsBetweenLines(r[0]) && IsBetweenLines(r[1])
    ensures !IsBetweenLines(s) ==> r[0] == (s + 1) % 16 && r[1] == (s + 15) % 16
  {
    if IsBetweenLines(s) then [s + FloorMod(s, 4) * -1 + 2]
    else [FloorMod(s + 1, 16), FloorMod(s - 1, 16)]
  }

  /** Java's `Math.floorMod` for a positive modulus, which is Dafny's `%`. */
  function FloorMod(x: int, m: int): int
    requires m > 0
  {
    x % m
  }

  /** The `nearestSectors` fields of the sixteen sector constants, written by the static initialiser. */
  class SectorTable {
    var nearestSectors: seq<seq<Sector>>

    constructor ()
      ensures nearestSectors == []
    {
      nearestSectors := [];
    }

    method InitializeNearestSectors()
      modifies this
      ensures |nearestSectors| == 16
      ensures forall s: Sector :: nearestSectors[s] == NearestSectors(s)
    {
      nearestSectors := [];
      for s := 0 to 16
        invariant |nearestSectors| == s
        invariant forall t :: 0 <= t < s ==> nearestSectors[t] == NearestSectors(t)
      {
        nearestSectors := nearestSectors + [NearestSectors(s)];
      }
    }
  }
}
