/**
 * Board coordinates. The Java `Square`, `File` and `Rank` enums index files and
 * ranks from 0 to 7; the square ordinal used by the bit-packed move is
 * `file * 8 + rank`, the same file-major layout as the packed board array.
 */
module Squares {
  import opened Wrappers

  type Coord = i: int | 0 <= i < 8

  datatype Square = Square(file: Coord, rank: Coord)

  /** The absolute value, as the distance between two files, ranks or steps. */
  function Abs(x: int): nat {
    if x < 0 then -x else x
  }

  predicate OnBoard(file: int, rank: int) {
    0 <= file < 8 && 0 <= rank < 8
  }

  function Ordinal(s: Square): (r: int)
    ensures 0 <= r < 64
  {
    s.file * 8 + s.rank
  }

  function ByOrdinal(i: int): (s: Square)
    requires 0 <= i < 64
    ensures Ordinal(s) == i
  {
    Square(i / 8, i % 8)
  }

  lemma OrdinalRoundTrip(s: Square)
    ensures ByOrdinal(Ordinal(s)) == s
  {
  }

  /** The square `df` files and `dr` ranks away, or None when that is off the board. */
  function ByOffset(s: Square, df: int, dr: int): (r: Option<Square>)
    ensures r.Some? <==> OnBoard(s.file + df, s.rank + dr)
  {
    if OnBoard(s.file + df, s.rank + dr) then Some(Square(s.file + df, s.rank + dr)) else None
  }

  function FileLetter(f: Coord): char {
    (('a' as int) + f) as char
  }

  function RankDigit(r: Coord): char {
    (('1' as int) + r) as char
  }

  /** The square in algebraic form, such as "e4". */
  function Name(s: Square): (r: string)
    ensures |r| == 2
  {
    [FileLetter(s.file), RankDigit(s.rank)]
  }
}
