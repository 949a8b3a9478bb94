/** `lines.Movement`: moving forwards or backwards along a line, or not at all. */
module Movements {
  import opened Wrappers
  import opened Squares
  import opened LineTypes
  import Lines

  datatype Movement = Backwards | Nowhere | Forwards {
    function Ordinal(): int {
      match this
      case Backwards => 0
      case Nowhere => 1
      case Forwards => 2
    }

    /** `getIncrement`: the ordinal minus one. */
    function Increment(): (i: int)
      ensures i == -1 <==> this == Backwards
      ensures i == 0 <==> this == Nowhere
      ensures i == 1 <==> this == Forwards
    {
      Ordinal() - 1
    }
  }

  /**
   * `getSquaresToMoveThrough`: increment -1 gives the squares behind `s` on its
   * line of kind `t`, increment 1 the squares in front, and anything else null.
   * The squares come nearest first.
   */
  function SquaresToMoveThrough(m: Movement, s: Square, t: LineType): (r: Option<seq<Square>>)
    ensures r.None? <==> m == Nowhere
    ensures m == Forwards ==> |r.value| == |Lines.SquaresThrough(t, s)| - 1 - Lines.IndexIn(t, s)
    ensures m == Forwards ==> forall k :: 0 <= k < |r.value| ==>
      r.value[k] == Lines.SquaresThrough(t, s)[Lines.IndexIn(t, s) + 1 + k]
    ensures m == Backwards ==> |r.value| == Lines.IndexIn(t, s)
    ensures m == Backwards ==> forall k :: 0 <= k < |r.value| ==>
      r.value[k] == Lines.SquaresThrough(t, s)[Lines.IndexIn(t, s) - 1 - k]
  {
    match m.Increment()
    case -1 => Some(Lines.SquaresBehind(t, s))
    case 1 => Some(Lines.SquaresInFront(t, s))
    case _ => None
  }
}
