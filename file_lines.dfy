/** `lines.File`: the eight vertical columns of the board, indexed 0 (a) to 7 (h). */
module FileLines {
  import opened Wrappers
  import opened Squares
  import Seqs

  /** `getIndex` is the ordinal, so a file is identified by its index. */
  type FileIndex = Coord

  predicate ContainsSquare(f: FileIndex, s: Square) {
    s.file == f
  }

  function ManhattanDistanceToSquare(f: FileIndex, s: Square): (r: int)
    ensures r >= 0
    ensures r == 0 <==> ContainsSquare(f, s)
  {
    if s.file >= f then s.file - f else f - s.file
  }

  /** The distance is that of the nearest square of the file, and some square of the file is that near. */
  lemma DistanceIsNearest(f: FileIndex, s: Square)
    ensures forall t: Square :: ContainsSquare(f, t) ==>
      ManhattanDistanceToSquare(f, s) <= Abs(t.file - s.file) + Abs(t.rank - s.rank)
    ensures ContainsSquare(f, Square(f, s.rank))
    ensures ManhattanDistanceToSquare(f, s) == Abs(f - s.file)
  {
  }

  /**
   * `getByHumanReadableForm`: null gives null; otherwise the first character c names
   * the file with index c - 'a', and an index outside 0..7 or an empty string throws.
   */
  function ByHumanReadableForm(form: Option<string>): (r: Result<Option<FileIndex>>)
    ensures form.None? ==> r == Success(None)
    ensures form.Some? && r.Success? ==>
      |form.value| > 0 && r.value == Some((form.value[0] as int) - ('a' as int))
    ensures form.Some? ==>
      (r.Success? <==> |form.value| > 0 && 'a' <= form.value[0] <= 'h')
  {
    match form
    case None => Success(None)
    case Some(text) =>
      if |text| == 0 then Failure("string index out of range")
      else
        var index := (text[0] as int) - 96 - 1;
        if 0 <= index < 8 then Success(Some(index)) else Failure("no file with that index")
  }

  lemma ByHumanReadableFormOfLetter(f: FileIndex)
    ensures ByHumanReadableForm(Some([FileLetter(f)])) == Success(Some(f))
  {
  }

  /** The squares of file `f`, one per rank in rank order. */
  function ContainedSquares(f: FileIndex): (r: seq<Square>)
    ensures |r| == 8
    ensures forall i :: 0 <= i < 8 ==> r[i] == Square(f, i)
  {
    seq(8, (i: int) requires 0 <= i < 8 => Square(f, i))
  }

  lemma ContainedSquaresExactly(f: FileIndex, s: Square)
    ensures s in ContainedSquares(f) <==> ContainsSquare(f, s)
  {
    if ContainsSquare(f, s) {
      assert ContainedSquares(f)[s.rank] == s;
    }
  }

  /**
   * The per-file lists that `setContainedSquares` assigns to every `File`
   * constant: the contained squares and their reverse.
   */
  class FileSquareTable {
    var contained: seq<seq<Square>>
    var reversed: seq<seq<Square>>

    constructor ()
      ensures contained == [] && reversed == []
    {
      contained := [];
      reversed := [];
    }

    method SetContainedSquares()
      modifies this
      ensures |contained| == 8 && |reversed| == 8
      ensures forall f: FileIndex :: contained[f] == ContainedSquares(f)
      ensures forall f: FileIndex :: reversed[f] == Seqs.Reverse(ContainedSquares(f))
    {
      contained := [];
      reversed := [];
      for f := 0 to 8
        invariant |contained| == f && |reversed| == f
        invariant forall g :: 0 <= g < f ==> contained[g] == ContainedSquares(g)
        invariant forall g :: 0 <= g < f ==> reversed[g] == Seqs.Reverse(ContainedSquares(g))
      {
        var squares := ContainedSquares(f);
        contained := contained + [squares];
        reversed := reversed + [Seqs.Reverse(squares)];
      }
    }
  }
}
