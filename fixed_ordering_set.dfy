/**
 * The two `FixedOrderingSet` interfaces (`dataStructures` and
 * `independentDataStructures`): a navigable set whose elements sit in a
 * fixed order, so that every navigation is "the element some positions
 * away". Both interfaces leave `retrieveOffsetFromElement` and the index
 * function to their implementations; here a set is its elements in order,
 * and the element `offset` positions away from `e` is the one at
 * `index(e) + offset`, or none past either end or for an element outside
 * the set.
 */
module FixedOrderingSets {
  import opened Wrappers
  import Seqs
  import Utilities

  /** The elements of a set, in the set's fixed order; no element twice. */
  type Ordering<E(==,!new)> = s: seq<E> | Seqs.Distinct(s) witness []

  /** The position of the first occurrence of `e` in `s`, if any. */
  function IndexIn<E(==,!new)>(s: seq<E>, e: E): (r: Option<nat>)
    ensures r.Some? <==> e in s
    ensures r.Some? ==> r.value < |s| && s[r.value] == e
  {
    if s == [] then None
    else if s[0] == e then Some(0)
    else match IndexIn(s[1..], e)
      case None => None
      case Some(i) => Some(i + 1)
  }

  /** In a sequence without repeats, the position of an element is the one where it stands. */
  lemma IndexOfDistinct<E(!new)>(s: seq<E>, i: nat)
    requires Seqs.Distinct(s) && i < |s|
    ensures IndexIn(s, s[i]) == Some(i)
  {
    var j := IndexIn(s, s[i]).value;
    assert s[j] == s[i];
  }

  datatype FixedOrderingSet<E(==,!new)> = FixedOrderingSet(elements: Ordering<E>)
  {
    predicate Contains(e: E) {
      e in elements
    }

    /** `retrieveOffsetFromElement`: the element `offset` positions after `e` (before it, for a negative offset). */
    function RetrieveOffset(e: E, offset: int): (r: Option<E>)
      ensures r.Some? <==> Contains(e) && 0 <= IndexIn(elements, e).value + offset < |elements|
      ensures r.Some? ==> IndexIn(elements, r.value) == Some(IndexIn(elements, e).value + offset)
    {
      match IndexIn(elements, e)
      case None => None
      case Some(i) =>
        if 0 <= i + offset < |elements| then
          IndexOfDistinct(elements, i + offset);
          Some(elements[i + offset])
        else None
    }

    /** `lower`: offset -1. */
    function Lower(e: E): Option<E> {
      RetrieveOffset(e, -1)
    }

    /** `higher`: offset +1. */
    function Higher(e: E): Option<E> {
      RetrieveOffset(e, 1)
    }

    /** `floor`: the element itself when it is in the set, else `lower`. */
    function Floor(e: E): (r: Option<E>)
      ensures Contains(e) ==> r == Some(e)
      ensures !Contains(e) ==> r == Lower(e)
    {
      if Contains(e) then Some(e) else Lower(e)
    }

    /** `ceiling`: the element itself when it is in the set, else `higher`. */
    function Ceiling(e: E): (r: Option<E>)
      ensures Contains(e) ==> r == Some(e)
      ensures !Contains(e) ==> r == Higher(e)
    {
      if Contains(e) then Some(e) else Higher(e)
    }

    /** `first`: the element at index 0, or null for an empty set. */
    function First(): (r: Option<E>)
      ensures r.None? <==> |elements| == 0
      ensures r.Some? ==> IndexIn(elements, r.value) == Some(0)
    {
      if |elements| == 0 then None
      else
        IndexOfDistinct(elements, 0);
        Some(elements[0])
    }

    /** `last`: the element at index `size() - 1`, or null for an empty set. */
    function Last(): (r: Option<E>)
      ensures r.None? <==> |elements| == 0
      ensures r.Some? ==> IndexIn(elements, r.value) == Some(|elements| - 1)
    {
      if |elements| == 0 then None
      else
        IndexOfDistinct(elements, |elements| - 1);
        Some(elements[|elements| - 1])
    }

    /** `pollFirst` and `pollLast`: the set cannot be modified, so both always throw. */
    function Poll(): (r: Result<E>)
      ensures r.Failure?
    {
      Failure("this set cannot be modified")
    }

    /** `getNeighbors(e)`: `lower(e)` and `higher(e)`, without the missing ones. */
    function Neighbors(e: E): (r: seq<E>)
      ensures |r| <= 2
      ensures forall x :: x in r <==> Some(x) == Lower(e) || Some(x) == Higher(e)
    {
      Utilities.NonNull([Lower(e), Higher(e)])
    }

    /** `subSet(from, fromInclusive, to, toInclusive)`, as `NavigableSet` defines it: the elements from `from` to `to`. */
    function SubSet(from: Option<E>, fromInclusive: bool, to: Option<E>, toInclusive: bool): (r: Result<seq<E>>)
      ensures r.Success? <==> (from.Some? && to.Some? && Contains(from.value) && Contains(to.value)
        && IndexIn(elements, from.value).value <= IndexIn(elements, to.value).value)
    {
      if from.None? || to.None? then Failure("null bound")
      else match (IndexIn(elements, from.value), IndexIn(elements, to.value))
        case (Some(i), Some(j)) =>
          if i > j then Failure("fromKey > toKey")
          else
            var lo := if fromInclusive then i else i + 1;
            var hi := if toInclusive then j + 1 else j;
            Success(if lo <= hi then elements[lo..hi] else [])
        case _ => Failure("bound outside the set")
    }

    /** `headSet(to, inclusive)`: `subSet(first(), true, to, inclusive)`. */
    function HeadSet(to: E, inclusive: bool): Result<seq<E>> {
      SubSet(First(), true, Some(to), inclusive)
    }

    /** `tailSet(from, inclusive)`: `subSet(from, inclusive, last(), true)`. */
    function TailSet(from: E, inclusive: bool): Result<seq<E>> {
      SubSet(Some(from), inclusive, Last(), true)
    }
  }

  /** `lower` and `higher` undo each other. */
  lemma LowerHigherInverse<E(!new)>(s: FixedOrderingSet<E>, e: E, d: E)
    ensures s.Lower(e) == Some(d) <==> s.Higher(d) == Some(e)
  {
    if s.Lower(e) == Some(d) {
      var i := IndexIn(s.elements, e).value;
      IndexOfDistinct(s.elements, i - 1);
    }
    if s.Higher(d) == Some(e) {
      var i := IndexIn(s.elements, d).value;
      IndexOfDistinct(s.elements, i + 1);
    }
  }

  /** Nothing comes before the first element or after the last. */
  lemma FirstAndLastAreEnds<E(!new)>(s: FixedOrderingSet<E>)
    requires |s.elements| > 0
    ensures s.Lower(s.First().value).None?
    ensures s.Higher(s.Last().value).None?
  {
    IndexOfDistinct(s.elements, 0);
    IndexOfDistinct(s.elements, |s.elements| - 1);
  }

  /** A sub-set between two members is the slice between their positions. */
  lemma SubSetByIndex<E(!new)>(s: FixedOrderingSet<E>, i: nat, j: nat, fromInclusive: bool, toInclusive: bool)
    requires i <= j < |s.elements|
    ensures var lo := if fromInclusive then i else i + 1;
      var hi := if toInclusive then j + 1 else j;
      s.SubSet(Some(s.elements[i]), fromInclusive, Some(s.elements[j]), toInclusive)
        == Success(if lo <= hi then s.elements[lo..hi] else [])
  {
    IndexOfDistinct(s.elements, i);
    IndexOfDistinct(s.elements, j);
  }

  /** The head set up to an element is the prefix that ends at it. */
  lemma HeadSetIsPrefix<E(!new)>(s: FixedOrderingSet<E>, e: E, inclusive: bool)
    requires s.Contains(e)
    ensures var i := IndexIn(s.elements, e).value;
      s.HeadSet(e, inclusive) == Success(s.elements[..if inclusive then i + 1 else i])
  {
    var i := IndexIn(s.elements, e).value;
    SubSetByIndex(s, 0, i, true, inclusive);
  }

  /** The tail set from an element is the suffix that starts at it. */
  lemma TailSetIsSuffix<E(!new)>(s: FixedOrderingSet<E>, e: E, inclusive: bool)
    requires s.Contains(e)
    ensures var i := IndexIn(s.elements, e).value;
      s.TailSet(e, inclusive) == Success(s.elements[if inclusive then i else i + 1..])
  {
    var i := IndexIn(s.elements, e).value;
    var lo := if inclusive then i else i + 1;
    TailSetSlice(s, e, inclusive);
    assert s.elements[lo..|s.elements|] == s.elements[lo..];
  }

  lemma TailSetSlice<E(!new)>(s: FixedOrderingSet<E>, e: E, inclusive: bool)
    requires s.Contains(e)
    ensures var i := IndexIn(s.elements, e).value;
      s.TailSet(e, inclusive) == Success(s.elements[if inclusive then i else i + 1..|s.elements|])
  {
    IndexOfDistinct(s.elements, |s.elements| - 1);
  }

  /** The element at the greatest position up to `k` that is not excluded, if any. */
  function NearestAtOrBelow<E(==,!new)>(s: FixedOrderingSet<E>, k: int, exclude: set<E>): (r: Option<E>)
    requires k < |s.elements|
    ensures r.Some? ==> r.value in s.elements && r.value !in exclude
    decreases k + 1
  {
    if k < 0 then None
    else if s.elements[k] !in exclude then Some(s.elements[k])
    else NearestAtOrBelow(s, k - 1, exclude)
  }

  /** The element at the least position from `k` on that is not excluded, if any. */
  function NearestAtOrAbove<E(==,!new)>(s: FixedOrderingSet<E>, k: nat, exclude: set<E>): (r: Option<E>)
    ensures r.Some? ==> r.value in s.elements && r.value !in exclude
    decreases |s.elements| - k
  {
    if k >= |s.elements| then None
    else if s.elements[k] !in exclude then Some(s.elements[k])
    else NearestAtOrAbove(s, k + 1, exclude)
  }

  /** The nearest element before `e` outside the exclusions; none for a non-member. */
  function NearestBelow<E(==,!new)>(s: FixedOrderingSet<E>, e: E, exclude: set<E>): Option<E> {
    match IndexIn(s.elements, e)
    case None => None
    case Some(i) => NearestAtOrBelow(s, i - 1, exclude)
  }

  /** The nearest element after `e` outside the exclusions; none for a non-member. */
  function NearestAbove<E(==,!new)>(s: FixedOrderingSet<E>, e: E, exclude: set<E>): Option<E> {
    match IndexIn(s.elements, e)
    case None => None
    case Some(i) => NearestAtOrAbove(s, i + 1, exclude)
  }

  /**
   * `lower(e, elementsToExclude)`: step to `lower` until the element is not
   * excluded. The result is the nearest element before `e` outside the
   * exclusions, or none when there is none.
   */
  method LowerExcluding<E(==,!new)>(s: FixedOrderingSet<E>, e: E, exclude: set<E>) returns (r: Option<E>)
    ensures r == NearestBelow(s, e, exclude)
    ensures r.Some? ==> s.Contains(e) && s.Contains(r.value) && r.value !in exclude
    ensures r.Some? ==> var i := IndexIn(s.elements, e).value; var k := IndexIn(s.elements, r.value).value;
      k < i && forall j :: k < j < i ==> s.elements[j] in exclude
    ensures r.None? && s.Contains(e) ==> var i := IndexIn(s.elements, e).value;
      forall j :: 0 <= j < i ==> s.elements[j] in exclude
  {
    ghost var start := IndexIn(s.elements, e);
    r := s.Lower(e);
    ghost var k: int := if start.Some? then start.value - 1 else -1;
    while r.Some? && r.value in exclude
      invariant start.None? ==> r.None?
      invariant start.Some? ==> -1 <= k < start.value
      invariant start.Some? ==> forall j :: k < j < start.value ==> s.elements[j] in exclude
      invariant start.Some? ==> (r.None? <==> k == -1)
      invariant r.Some? ==> 0 <= k && r.value == s.elements[k]
      invariant start.Some? ==> NearestBelow(s, e, exclude) == NearestAtOrBelow(s, k, exclude)
      decreases k
    {
      IndexOfDistinct(s.elements, k);
      r := s.Lower(r.value);
      k := k - 1;
    }
    if r.Some? {
      IndexOfDistinct(s.elements, k);
    }
  }

  /**
   * `higher(e, elementsToExclude)`: step to `higher` until the element is
   * not excluded. The result is the nearest element after `e` outside the
   * exclusions, or none when there is none.
   */
  method HigherExcluding<E(==,!new)>(s: FixedOrderingSet<E>, e: E, exclude: set<E>) returns (r: Option<E>)
    ensures r == NearestAbove(s, e, exclude)
    ensures r.Some? ==> s.Contains(e) && s.Contains(r.value) && r.value !in exclude
    ensures r.Some? ==> var i := IndexIn(s.elements, e).value; var k := IndexIn(s.elements, r.value).value;
      i < k && forall j :: i < j < k ==> s.elements[j] in exclude
    ensures r.None? && s.Contains(e) ==> var i := IndexIn(s.elements, e).value;
      forall j :: i < j < |s.elements| ==> s.elements[j] in exclude
  {
    ghost var start := IndexIn(s.elements, e);
    r := s.Higher(e);
    ghost var k: int := if start.Some? then start.value + 1 else |s.elements|;
    while r.Some? && r.value in exclude
      invariant start.None? ==> r.None?
      invariant start.Some? ==> start.value < k <= |s.elements|
      invariant start.Some? ==> forall j :: start.value < j < k ==> s.elements[j] in exclude
      invariant start.Some? ==> (r.None? <==> k == |s.elements|)
      invariant r.Some? ==> k < |s.elements| && r.value == s.elements[k]
      invariant start.Some? ==> NearestAbove(s, e, exclude) == NearestAtOrAbove(s, k, exclude)
      decreases |s.elements| - k
    {
      IndexOfDistinct(s.elements, k);
      r := s.Higher(r.value);
      k := k + 1;
    }
    if r.Some? {
      IndexOfDistinct(s.elements, k);
    }
  }

  /** `getNeighbors(e, elementsToExclude)`: the two nearest elements on either side outside the exclusions, without the missing ones. */
  method NeighborsExcluding<E(==,!new)>(s: FixedOrderingSet<E>, e: E, exclude: set<E>) returns (r: seq<E>)
    ensures r == Utilities.NonNull([NearestBelow(s, e, exclude), NearestAbove(s, e, exclude)])
    ensures |r| <= 2
    ensures forall x :: x in r ==> s.Contains(x) && x !in exclude && x != e
  {
    var lower := LowerExcluding(s, e, exclude);
    var higher := HigherExcluding(s, e, exclude);
    if lower.Some? {
      IndexOfDistinct(s.elements, IndexIn(s.elements, lower.value).value);
    }
    r := Utilities.NonNull([lower, higher]);
  }

  /**
   * `getThirdInSequence(first, second)`: the next element after `second`
   * in the direction from `first` to `second`; the two must differ.
   */
  function ThirdInSequence<E(==,!new)>(s: FixedOrderingSet<E>, first: E, second: E): (r: Result<Option<E>>)
    requires s.Contains(first) && s.Contains(second)
    ensures r.Failure? <==> first == second
  {
    var i := IndexIn(s.elements, first).value;
    var j := IndexIn(s.elements, second).value;
    match Utilities.Sign(i - j)
    case -1 => Success(s.Higher(second))
    case 1 => Success(s.Lower(second))
    case _ => Failure("The two provided elements must be in a sequence and not be the same")
  }

  /** The third element continues one step in the direction from the first to the second. */
  lemma ThirdContinuesDirection<E(!new)>(s: FixedOrderingSet<E>, first: E, second: E)
    requires s.Contains(first) && s.Contains(second) && first != second
    ensures var i := IndexIn(s.elements, first).value;
      var j := IndexIn(s.elements, second).value;
      var r := ThirdInSequence(s, first, second).value;
      r.Some? ==> IndexIn(s.elements, r.value).value == j + Utilities.Sign(j - i)
  {
    var j := IndexIn(s.elements, second).value;
    var r := ThirdInSequence(s, first, second).value;
    if r.Some? {
      if j + 1 < |s.elements| { IndexOfDistinct(s.elements, j + 1); }
      if j > 0 { IndexOfDistinct(s.elements, j - 1); }
    }
  }

  /** `descendingIterator`: an index that starts at `size()` and steps down before each read. */
  class DescendingIterator<E(==,!new)> {
    const elements: Ordering<E>
    var currentIndex: int

    constructor (s: FixedOrderingSet<E>)
      ensures elements == s.elements && currentIndex == |s.elements|
      ensures Valid()
    {
      elements := s.elements;
      currentIndex := |s.elements|;
    }

    predicate Valid()
      reads this
    {
      0 <= currentIndex <= |elements|
    }

    function HasNext(): (r: bool)
      reads this
      ensures r <==> currentIndex > 0
    {
      currentIndex > 0
    }

    /** `next`: the element at the index before the current one. */
    method Next() returns (e: E)
      requires Valid() && HasNext()
      modifies this
      ensures Valid() && currentIndex == old(currentIndex) - 1
      ensures e == elements[currentIndex]
    {
      currentIndex := currentIndex - 1;
      e := elements[currentIndex];
    }
  }

  /** Draining the descending iterator yields the set's elements in reverse order. */
  method DrainDescending<E(==,!new)>(s: FixedOrderingSet<E>) returns (r: seq<E>)
    ensures r == Seqs.Reverse(s.elements)
  {
    var it := new DescendingIterator(s);
    r := [];
    while it.HasNext()
      invariant it.Valid() && it.elements == s.elements
      invariant r == Seqs.Reverse(s.elements[it.currentIndex..])
      decreases it.currentIndex
    {
      ghost var c := it.currentIndex;
      var e := it.Next();
      assert s.elements[c - 1..][1..] == s.elements[c..];
      r := r + [e];
    }
    assert s.elements[0..] == s.elements;
  }
}
