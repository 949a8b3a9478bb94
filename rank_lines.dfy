/** `boardFeatures.Rank`: the eight horizontal rows of the board, indexed 0 (rank 1) to 7 (rank 8). */
module RankLines {
  import opened Wrappers
  import opened Squares
  import opened Directions
  import Seqs

  type RankIndex = Coord

  /** The squares of rank `r`, one per file in file order. */
  function ContainedSquares(r: RankIndex): (squares: seq<Square>)
    ensures |squares| == 8
    ensures forall i :: 0 <= i < 8 ==> squares[i] == Square(i, r)
  {
    seq(8, (i: int) requires 0 <= i < 8 => Square(i, r))
  }

  function ReverseContainedSquares(r: RankIndex): (squares: seq<Square>)
    ensures |squares| == 8
    ensures forall i :: 0 <= i < 8 ==> squares[i] == Square(7 - i, r)
  {
    Seqs.Reverse(ContainedSquares(r))
  }

  predicate ContainsSquare(r: RankIndex, s: Square) {
    s.rank == r
  }

  function SpotInLine(s: Square): (spot: int)
    ensures 0 <= spot < 8
    ensures ContainedSquares(s.rank)[spot] == s
  {
    s.file
  }

  const ForwardDirection: Direction := Right

  /** Stepping in the forward direction moves one place along the contained list. */
  lemma ForwardStepsAlongList(r: RankIndex, i: int)
    requires 0 <= i < 7
    ensures Neighbor(ContainedSquares(r)[i], ForwardDirection) == Some(ContainedSquares(r)[i + 1])
  {
  }

  lemma ContainedSquaresExactly(r: RankIndex, s: Square)
    ensures s in ContainedSquares(r) <==> ContainsSquare(r, s)
  {
    if ContainsSquare(r, s) {
      assert ContainedSquares(r)[s.file] == s;
    }
  }

  /**
   * `getByHumanReadableForm`: the string is read with `Integer.parseInt`, and the
   * number n names the rank with index n - 1; anything else throws.
   */
  function ByHumanReadableForm(form: string): (r: Result<RankIndex>)
    ensures r.Success? <==> ParseInt(form).Some? && 1 <= ParseInt(form).value <= 8
    ensures r.Success? ==> r.value == ParseInt(form).value - 1
  {
    match ParseInt(form)
    case None => Failure("not a number")
    case Some(n) => if 1 <= n <= 8 then Success(n - 1) else Failure("no rank with that index")
  }

  lemma ByHumanReadableFormOfDigit(r: RankIndex)
    ensures ByHumanReadableForm([RankDigit(r)]) == Success(r)
  {
    assert DigitsValue([RankDigit(r)]) == r + 1;
  }

  predicate IsDigit(c: char) {
    '0' <= c <= '9'
  }

  /** Decimal value of a string of digits. */
  function DigitsValue(s: string): nat
    requires forall i :: 0 <= i < |s| ==> IsDigit(s[i])
  {
    if s == [] then 0
    else
      assert IsDigit(s[|s| - 1]);
      DigitsValue(s[..|s| - 1]) * 10 + ((s[|s| - 1] as int) - ('0' as int))
  }

  /**
   * `Integer.parseInt` on a decimal string: an optional sign followed by at least
   * one digit. The 32-bit overflow check is not modelled; every out-of-range value
   * is rejected by the caller anyway.
   */
  function ParseInt(s: string): Option<int> {
    if |s| > 0 && (s[0] == '-' || s[0] == '+') then
      var digits := s[1..];
      if |digits| > 0 && forall i :: 0 <= i < |digits| ==> IsDigit(digits[i]) then
        var magnitude: int := DigitsValue(digits);
        Some(if s[0] == '-' then -magnitude else magnitude)
      else None
    else if |s| > 0 && forall i :: 0 <= i < |s| ==> IsDigit(s[i]) then Some(DigitsValue(s))
    else None
  }
}
