/**
 * `moves.FixedSizeList`: an append-only list of squares in an array, with a
 * table from every square of the board to a slot of the list. Adding a square
 * also points every square between it and the previously added one (walking
 * back against the direction the list grows in) at the new slot.
 */
module FixedSizeLists {
  import opened Wrappers
  import opened Squares
  import opened Directions
  import FeatureDirection

  /** A bound on the steps left before a walk in a direction leaves the board. */
  function WalkMeasure(s: Square, d: Direction): nat {
    (if d.FileDelta() == 1 then 7 - s.file else if d.FileDelta() == -1 then s.file else 8)
    + (if d.RankDelta() == 1 then 7 - s.rank else if d.RankDelta() == -1 then s.rank else 8)
  }

  function WalkSize(next: Option<Square>, d: Direction): nat {
    match next
    case None => 0
    case Some(s) => WalkMeasure(s, d) + 1
  }

  lemma WalkMeasureDecreases(s: Square, d: Direction)
    requires d != NoDirection
    ensures WalkSize(Neighbor(s, d), d) <= WalkMeasure(s, d)
  {
  }

  /**
   * The squares the loop of `add` visits, starting at `next` and stepping in
   * direction `d` until it meets `previous`. It fails where Java would throw
   * (a step off the board while a previous square is still expected) and
   * where it would never stop (no direction at all, never meeting `previous`).
   */
  function WalkFrom(next: Option<Square>, d: Direction, previous: Option<Square>): (r: Result<seq<Square>>)
    decreases WalkSize(next, d)
  {
    if next == previous then Success([])
    else if next.None? then Failure("null square")
    else if d == NoDirection then Failure("the walk never ends")
    else
      WalkMeasureDecreases(next.value, d);
      match WalkFrom(Neighbor(next.value, d), d, previous)
      case Success(rest) => Success([next.value] + rest)
      case Failure(e) => Failure(e)
  }

  /** Every square of a successful walk lies on the line from its start in direction `d`. */
  lemma {:induction false} WalkStaysOnLine(next: Option<Square>, d: Direction, previous: Option<Square>, i: nat)
    requires WalkFrom(next, d, previous).Success? && i < |WalkFrom(next, d, previous).value|
    ensures next.Some?
    ensures WalkFrom(next, d, previous).value[i].file == next.value.file + i * d.FileDelta()
    ensures WalkFrom(next, d, previous).value[i].rank == next.value.rank + i * d.RankDelta()
    decreases WalkSize(next, d)
  {
    if i > 0 {
      WalkMeasureDecreases(next.value, d);
      var following := Neighbor(next.value, d);
      assert WalkFrom(next, d, previous).value[i] == WalkFrom(following, d, previous).value[i - 1];
      WalkStaysOnLine(following, d, previous, i - 1);
      assert (i - 1) * d.FileDelta() + d.FileDelta() == i * d.FileDelta();
      assert (i - 1) * d.RankDelta() + d.RankDelta() == i * d.RankDelta();
    }
  }

  /** A walk with `walked` in front of it; a failure stays a failure. */
  function Prepend(walked: seq<Square>, w: Result<seq<Square>>): Result<seq<Square>> {
    match w
    case Success(rest) => Success(walked + rest)
    case Failure(e) => Failure(e)
  }

  /** One step of the walk: a square that is not `previous` comes before the walk from its neighbour. */
  lemma WalkStep(walked: seq<Square>, current: Square, d: Direction, previous: Option<Square>)
    requires Some(current) != previous && d != NoDirection
    ensures Prepend(walked, WalkFrom(Some(current), d, previous))
      == Prepend(walked + [current], WalkFrom(Neighbor(current, d), d, previous))
  {
    var following := WalkFrom(Neighbor(current, d), d, previous);
    assert WalkFrom(Some(current), d, previous) == Prepend([current], following);
    match following
    case Success(rest) =>
      assert walked + ([current] + rest) == (walked + [current]) + rest;
    case Failure(_) =>
  }

  /** The ordinals of the squares of a walk. */
  function Ordinals(walk: seq<Square>): set<int> {
    set i | 0 <= i < |walk| :: Ordinal(walk[i])
  }

  lemma OrdinalsAppend(walk: seq<Square>, s: Square)
    ensures Ordinals(walk + [s]) == Ordinals(walk) + {Ordinal(s)}
  {
    var longer := walk + [s];
    forall x | x in Ordinals(longer)
      ensures x in Ordinals(walk) + {Ordinal(s)}
    {
      var i :| 0 <= i < |longer| && Ordinal(longer[i]) == x;
      if i < |walk| {
        assert longer[i] == walk[i];
      }
    }
    forall x | x in Ordinals(walk)
      ensures x in Ordinals(longer)
    {
      var i :| 0 <= i < |walk| && Ordinal(walk[i]) == x;
      assert longer[i] == walk[i];
    }
    assert longer[|walk|] == s;
  }

  class FixedSizeList {
    const squares: array<Option<Square>>
    const indices: array<int>
    const oppositeDirectionOfNewSquares: Direction
    var size: int

    ghost predicate Valid()
      reads this, squares, indices
    {
      && indices.Length == 64
      && 0 <= size <= squares.Length
      && (forall k :: 0 <= k < squares.Length ==> (squares[k].Some? <==> k < size))
      && (forall j :: 0 <= j < 64 ==> 0 <= indices[j] && (indices[j] < squares.Length || indices[j] == 0))
    }

    /** An empty list of the given capacity that walks back in direction `opposite`. */
    constructor (maxSize: nat, opposite: Direction)
      ensures Valid() && fresh(squares) && fresh(indices)
      ensures squares.Length == maxSize && size == 0 && oppositeDirectionOfNewSquares == opposite
    {
      squares := new Option<Square>[maxSize](_ => None);
      indices := new int[64](_ => 0);
      oppositeDirectionOfNewSquares := opposite;
      size := 0;
    }

    /** `contains`: the slot the table gives for the square holds that square. Java throws on a list of capacity 0. */
    function Contains(square: Square): (r: Result<bool>)
      requires Valid()
      reads this, squares, indices
      ensures r.Failure? <==> squares.Length == 0
      ensures r.Success? ==> (r.value <==> indices[Ordinal(square)] < size && squares[indices[Ordinal(square)]] == Some(square))
    {
      if squares.Length == 0 then Failure("index out of bounds")
      else Success(squares[indices[Ordinal(square)]] == Some(square))
    }

    /**
     * `add`: fails when the list is full or the walk back fails; otherwise
     * the square takes the next slot, and it and every square walked over
     * point at that slot.
     */
    method Add(square: Square) returns (r: Outcome)
      requires Valid()
      modifies this, squares, indices
      ensures Valid()
      ensures var previous := if old(size) == 0 then None else old(squares[size - 1]);
        var walk := WalkFrom(Neighbor(square, oppositeDirectionOfNewSquares), oppositeDirectionOfNewSquares, previous);
        && (r.Fail? <==> old(size) >= squares.Length || walk.Failure?)
        && (r.Pass? ==>
          && size == old(size) + 1
          && squares[..] == old(squares[..])[old(size) := Some(square)]
          && indices[Ordinal(square)] == old(size)
          && (forall i :: 0 <= i < |walk.value| ==> indices[Ordinal(walk.value[i])] == old(size))
          && (forall j :: 0 <= j < 64 && j != Ordinal(square) && j !in Ordinals(walk.value) ==> indices[j] == old(indices[j])))
    {
      if size >= squares.Length {
        return Fail("Can't add too many squares to this list");
      }
      var previous := if size == 0 then None else squares[size - 1];
      var walked := MarkWalk(Neighbor(square, oppositeDirectionOfNewSquares), previous);
      if !walked {
        return Fail("the walk back does not reach the previous square");
      }
      squares[size] := Some(square);
      indices[Ordinal(square)] := size;
      size := size + 1;
      return Pass;
    }

    /** The loop of `add`: point every square of the walk from `start` at slot `size`. */
    method MarkWalk(start: Option<Square>, previous: Option<Square>) returns (ok: bool)
      requires Valid() && size < squares.Length
      modifies indices
      ensures Valid()
      ensures var walk := WalkFrom(start, oppositeDirectionOfNewSquares, previous);
        && (ok <==> walk.Success?)
        && (ok ==> forall i :: 0 <= i < |walk.value| ==> indices[Ordinal(walk.value[i])] == size)
        && (ok ==> forall j :: 0 <= j < 64 && j !in Ordinals(walk.value) ==> indices[j] == old(indices[j]))
    {
      var direction := oppositeDirectionOfNewSquares;
      var intermediate := start;
      if direction == NoDirection && intermediate != previous {
        return false;
      }
      ghost var walked: seq<Square> := [];
      ghost var whole := WalkFrom(start, direction, previous);
      assert whole == Prepend(walked, WalkFrom(intermediate, direction, previous)) by {
        if whole.Success? {
          assert walked + whole.value == whole.value;
        }
      }
      while intermediate != previous
        invariant Valid()
        invariant direction == NoDirection ==> intermediate == previous
        invariant whole == Prepend(walked, WalkFrom(intermediate, direction, previous))
        invariant forall i :: 0 <= i < |walked| ==> indices[Ordinal(walked[i])] == size
        invariant forall j :: 0 <= j < 64 && j !in Ordinals(walked) ==> indices[j] == old(indices[j])
        decreases WalkSize(intermediate, direction)
      {
        if intermediate.None? {
          return false;
        }
        var current := intermediate.value;
        indices[Ordinal(current)] := size;
        WalkMeasureDecreases(current, direction);
        WalkStep(walked, current, direction, previous);
        OrdinalsAppend(walked, current);
        walked := walked + [current];
        intermediate := Neighbor(current, direction);
      }
      assert walked + [] == walked;
      return true;
    }

    /**
     * `getNeighbor`: null on an empty list and the square itself for a
     * difference of 0; otherwise the square `diff` slots from the square's
     * slot, or null outside the list. A square not in the list that comes
     * after the first square counts as just past the end: nothing lies
     * after it and the last squares lie before it. Any other square not in
     * the list counts as sitting between its (stale) table slot and the
     * slot before.
     */
    function GetNeighbor(square: Square, diff: int): (r: Option<Square>)
      requires Valid()
      reads this, squares, indices
      ensures size == 0 ==> r.None?
      ensures size > 0 && diff == 0 ==> r == Some(square)
      ensures r.Some? && diff != 0 ==> exists k :: 0 <= k < size && squares[k] == r
      ensures size > 0 && Contains(square) == Success(true) ==>
        var k := indices[Ordinal(square)];
        r == (if 0 <= k + diff < size then squares[k + diff] else None)
      ensures size > 0 && diff != 0 && Contains(square) == Success(false) && Ordinal(square) > Ordinal(squares[0].value) ==>
        r == (if diff > 0 || size + diff < 0 then None else squares[size + diff])
      ensures size > 0 && diff != 0 && Contains(square) == Success(false) && Ordinal(square) <= Ordinal(squares[0].value) ==>
        var k := if diff > 0 then indices[Ordinal(square)] - 1 else indices[Ordinal(square)];
        r == (if 0 <= k + diff < size then squares[k + diff] else None)
    {
      if size == 0 then None
      else if diff == 0 then Some(square)
      else
        var currentSquare := Ordinal(square);
        var currentIndex :=
          if Contains(square) == Success(true) then indices[currentSquare]
          else
            var base := if currentSquare > Ordinal(squares[0].value) then size else indices[currentSquare];
            if diff > 0 then base - 1 else base;
        var index := currentIndex + diff;
        if index < 0 || index >= size then None else squares[index]
    }
  }

  /**
   * The constructor: a list of the given capacity walking back in the
   * opposite of `dir`. Java throws for a negative capacity. The opposite is
   * the intended one of the older `Direction`; as written that one throws
   * for the directions after NONE and is wrong for the others.
   */
  method NewFixedSizeList(maxSize: int, dir: Direction) returns (r: Result<FixedSizeList>)
    ensures r.Failure? <==> maxSize < 0
    ensures r.Success? ==> (r.value.Valid() && r.value.size == 0 && r.value.squares.Length == maxSize
      && r.value.oppositeDirectionOfNewSquares == FeatureDirection.Opposite(dir))
  {
    if maxSize < 0 {
      return Failure("negative array size");
    }
    var list := new FixedSizeList(maxSize, FeatureDirection.Opposite(dir));
    return Success(list);
  }

  /** Once added, a square is contained. */
  method AddThenContains(list: FixedSizeList, square: Square) returns (r: Outcome)
    requires list.Valid()
    modifies list, list.squares, list.indices
    ensures list.Valid()
    ensures r.Pass? ==> list.Contains(square) == Success(true)
  {
    r := list.Add(square);
  }
}
