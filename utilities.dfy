/**
 * `support.UtilityFunctions` and `support.CollectionUtilityFunctions`:
 * integer ranges, the sign of a Java `int`, the perfect squares up to 64,
 * reversal, round-robin concatenation of several lists, dropping nulls,
 * the empty-string test and the two-element sort.
 */
module Utilities {
  import opened Squares
  import opened Wrappers
  import Seqs

  const MinInt: int := -0x8000_0000
  const MaxInt: int := 0x7FFF_FFFF

  /** The values of a Java `int`. */
  type Int32 = x: int | MinInt <= x <= MaxInt

  /** The integers from `start` up to, but not including, `end`. */
  function RangeSeq(start: int, end: int): (r: seq<int>)
    requires start <= end
    ensures |r| == end - start
    ensures forall i :: 0 <= i < |r| ==> r[i] == start + i
  {
    seq(end - start, i => start + i)
  }

  /**
   * `getPrimitiveRange` and `getRange`: a new array holding `start`,
   * `start + 1`, ..., `end - 1`. A negative length makes Java throw.
   */
  method Range(start: int, end: int) returns (r: Result<array<int>>)
    ensures r.Failure? <==> end < start
    ensures r.Success? ==> r.value.Length == end - start && r.value[..] == RangeSeq(start, end)
  {
    if end < start {
      return Failure("negative array size");
    }
    var arrayOfInts := new int[end - start];
    var i := start;
    while i < end
      invariant start <= i <= end
      invariant forall k :: 0 <= k < i - start ==> arrayOfInts[k] == start + k
    {
      arrayOfInts[i - start] := i;
      i := i + 1;
    }
    return Success(arrayOfInts);
  }

  /** `Math.abs` on an `int`: the magnitude, except that the smallest `int` is its own absolute value. */
  function JavaAbs(x: Int32): (r: Int32)
    ensures x != MinInt ==> r == Abs(x)
  {
    if x == MinInt then MinInt else Abs(x)
  }

  /** Java's `/` on `int`: the quotient of the magnitudes, negated when the signs differ (it truncates toward zero). */
  function JavaDiv(a: int, b: int): int
    requires b != 0
  {
    if (a < 0) == (b < 0) then Abs(a) / Abs(b) else -(Abs(a) / Abs(b))
  }

  /** `getSign` as written: `value / Math.abs(value)`, or 0 for 0. */
  function SignAsWritten(value: Int32): (r: int)
    ensures r == -1 || r == 0 || r == 1
    ensures r == 0 <==> value == 0
    ensures value > 0 ==> r == 1
  {
    if value == 0 then 0 else JavaDiv(value, JavaAbs(value))
  }

  /** The smallest `int` is its own `Math.abs`, so `getSign` calls it positive. */
  lemma SignAsWrittenOfMinValue()
    ensures SignAsWritten(MinInt) == 1
  {
  }

  /** The sign of a number: -1, 0 or 1. */
  function Sign(value: int): (r: int)
    ensures r == 0 <==> value == 0
    ensures r == 1 <==> value > 0
    ensures r == -1 <==> value < 0
  {
    if value == 0 then 0 else if value > 0 then 1 else -1
  }

  /** Apart from the smallest `int`, `getSign` as written computes the sign. */
  lemma SignAsWrittenAgrees(value: Int32)
    requires value != MinInt
    ensures SignAsWritten(value) == Sign(value)
  {
    if value != 0 {
      assert JavaAbs(value) == Abs(value);
      assert Abs(value) / Abs(value) == 1;
    }
  }

  /** `isPerfectSquareUpTo64`: the switch over the listed squares. */
  predicate IsPerfectSquareUpTo64(number: int) {
    number in {0, 1, 4, 9, 16, 25, 36, 49, 64}
  }

  /** The listed numbers are exactly the squares of 0 through 8. */
  lemma PerfectSquaresExactly(number: int)
    ensures IsPerfectSquareUpTo64(number) <==> exists k :: 0 <= k <= 8 && k * k == number
  {
    if IsPerfectSquareUpTo64(number) {
      if number == 0 { assert 0 * 0 == number; }
      else if number == 1 { assert 1 * 1 == number; }
      else if number == 4 { assert 2 * 2 == number; }
      else if number == 9 { assert 3 * 3 == number; }
      else if number == 16 { assert 4 * 4 == number; }
      else if number == 25 { assert 5 * 5 == number; }
      else if number == 36 { assert 6 * 6 == number; }
      else if number == 49 { assert 7 * 7 == number; }
      else { assert 8 * 8 == number; }
    }
    if exists k :: 0 <= k <= 8 && k * k == number {
      var k :| 0 <= k <= 8 && k * k == number;
      assert k in {0, 1, 2, 3, 4, 5, 6, 7, 8};
    }
  }

  /** `reverseList` in either class: a reversed copy, which reversing again undoes. */
  lemma {:induction false} ReverseInvolution<T>(list: seq<T>)
    ensures Seqs.Reverse(Seqs.Reverse(list)) == list
  {
    var r := Seqs.Reverse(list);
    assert |Seqs.Reverse(r)| == |list|;
    forall i | 0 <= i < |list|
      ensures Seqs.Reverse(r)[i] == list[i]
    {
      assert Seqs.Reverse(r)[i] == r[|r| - 1 - i];
    }
  }

  /** `getValueFromArray`: the entry at the enum constant's ordinal; Java throws past the array's end. */
  function ValueFromArray<T>(values: seq<T>, ordinal: nat): (r: Result<T>)
    ensures r.Success? <==> ordinal < |values|
    ensures r.Success? ==> r.value == values[ordinal]
  {
    if ordinal < |values| then Success(values[ordinal]) else Failure("index out of bounds")
  }

  // Round-robin concatenation. A list of lists is read column by column:
  // the `k`-th elements of every list long enough, in list order, then the
  // (k+1)-th elements, and so on.

  /** The `k`-th element of every list longer than `k`, in list order. */
  function Column<T>(lists: seq<seq<T>>, k: nat): (r: seq<T>)
    ensures |r| <= |lists|
  {
    if lists == [] then []
    else
      var last := lists[|lists| - 1];
      Column(lists[..|lists| - 1], k) + (if |last| > k then [last[k]] else [])
  }

  /** What is left of each list after its first `k` elements, for the lists not yet used up. */
  function Suffixes<T>(lists: seq<seq<T>>, k: nat): (r: seq<seq<T>>)
    ensures forall i :: 0 <= i < |r| ==> r[i] != []
  {
    if lists == [] then []
    else
      var last := lists[|lists| - 1];
      Suffixes(lists[..|lists| - 1], k) + (if |last| > k then [last[k..]] else [])
  }

  /** The length of the longest list. */
  function MaxLength<T>(lists: seq<seq<T>>): (r: nat)
    ensures forall i :: 0 <= i < |lists| ==> |lists[i]| <= r
  {
    if lists == [] then 0
    else
      var rest := MaxLength(lists[..|lists| - 1]);
      var last := |lists[|lists| - 1]|;
      if last > rest then last else rest
  }

  /** The columns from `k` on, one after another. */
  function Rounds<T>(lists: seq<seq<T>>, k: nat): seq<T>
    decreases MaxLength(lists) - k
  {
    if k >= MaxLength(lists) then [] else Column(lists, k) + Rounds(lists, k + 1)
  }

  /** Round-robin order: every list's element at index i before any list's element at index i + 1. */
  function RoundRobin<T>(lists: seq<seq<T>>): seq<T> {
    Rounds(lists, 0)
  }

  /** The first element of each (non-empty) iterator. */
  function Heads<T>(iterators: seq<seq<T>>): (r: seq<T>)
    requires forall i :: 0 <= i < |iterators| ==> iterators[i] != []
    ensures |r| == |iterators|
  {
    if iterators == [] then []
    else Heads(iterators[..|iterators| - 1]) + [iterators[|iterators| - 1][0]]
  }

  /** The iterators after one `next()` each, without those that have no next element left. */
  function Advance<T>(iterators: seq<seq<T>>): (r: seq<seq<T>>)
    requires forall i :: 0 <= i < |iterators| ==> iterators[i] != []
    ensures forall i :: 0 <= i < |r| ==> r[i] != []
  {
    if iterators == [] then []
    else
      var last := iterators[|iterators| - 1];
      Advance(iterators[..|iterators| - 1]) + (if |last| > 1 then [last[1..]] else [])
  }

  /** The next element of each remaining iterator is the next column. */
  lemma {:induction false} HeadsOfSuffixes<T>(lists: seq<seq<T>>, k: nat)
    ensures Heads(Suffixes(lists, k)) == Column(lists, k)
  {
    if lists != [] {
      var init := lists[..|lists| - 1];
      HeadsOfSuffixes(init, k);
      var last := lists[|lists| - 1];
      if |last| > k {
        assert Suffixes(lists, k) == Suffixes(init, k) + [last[k..]];
        assert Suffixes(lists, k)[..|Suffixes(lists, k)| - 1] == Suffixes(init, k);
      } else {
        assert Suffixes(lists, k) == Suffixes(init, k);
      }
    }
  }

  /** One round of `next()` turns the suffixes after `k` elements into those after `k + 1`. */
  lemma {:induction false} AdvanceSuffixes<T>(lists: seq<seq<T>>, k: nat)
    ensures Advance(Suffixes(lists, k)) == Suffixes(lists, k + 1)
  {
    if lists != [] {
      var init := lists[..|lists| - 1];
      AdvanceSuffixes(init, k);
      var last := lists[|lists| - 1];
      if |last| > k {
        assert Suffixes(lists, k) == Suffixes(init, k) + [last[k..]];
        assert Suffixes(lists, k)[..|Suffixes(lists, k)| - 1] == Suffixes(init, k);
        assert last[k..][1..] == last[k + 1..];
      } else {
        assert Suffixes(lists, k) == Suffixes(init, k);
      }
    }
  }

  /** The remaining iterators run out exactly when every list is used up. */
  lemma {:induction false} SuffixesEmpty<T>(lists: seq<seq<T>>, k: nat)
    ensures Suffixes(lists, k) == [] <==> k >= MaxLength(lists)
  {
    if lists != [] {
      var init := lists[..|lists| - 1];
      SuffixesEmpty(init, k);
    }
  }

  /** Appending more heads, one iterator at a time. */
  lemma HeadsAppend<T>(iterators: seq<seq<T>>, i: nat)
    requires i < |iterators|
    requires forall j :: 0 <= j < |iterators| ==> iterators[j] != []
    ensures Heads(iterators[..i + 1]) == Heads(iterators[..i]) + [iterators[i][0]]
    ensures Advance(iterators[..i + 1]) == Advance(iterators[..i]) + (if |iterators[i]| > 1 then [iterators[i][1..]] else [])
  {
    assert iterators[..i + 1][..i] == iterators[..i];
  }

  /**
   * `concat`: while iterators remain, take the next element of each in
   * turn and keep only those that have more. The result is the round-robin
   * order of the lists.
   */
  method Concat<T>(lists: seq<seq<T>>) returns (result: seq<T>)
    ensures result == RoundRobin(lists)
  {
    result := [];
    var iterators := Suffixes(lists, 0);
    ghost var k: nat := 0;
    while iterators != []
      invariant iterators == Suffixes(lists, k)
      invariant result + Rounds(lists, k) == RoundRobin(lists)
      decreases MaxLength(lists) - k
    {
      SuffixesEmpty(lists, k);
      ghost var before := result;
      result, iterators := NextRound(result, iterators);
      HeadsOfSuffixes(lists, k);
      AdvanceSuffixes(lists, k);
      assert result + Rounds(lists, k + 1) == before + Rounds(lists, k);
      k := k + 1;
    }
    SuffixesEmpty(lists, k);
  }

  /** The inner loop of `concat`: the next element of each iterator in turn, and the iterators that have more. */
  method NextRound<T>(result: seq<T>, iterators: seq<seq<T>>) returns (extended: seq<T>, remaining: seq<seq<T>>)
    requires forall j :: 0 <= j < |iterators| ==> iterators[j] != []
    ensures extended == result + Heads(iterators)
    ensures remaining == Advance(iterators)
  {
    extended := result;
    remaining := [];
    var i := 0;
    while i < |iterators|
      invariant 0 <= i <= |iterators|
      invariant extended == result + Heads(iterators[..i])
      invariant remaining == Advance(iterators[..i])
    {
      HeadsAppend(iterators, i);
      extended := extended + [iterators[i][0]];
      if |iterators[i]| > 1 {
        remaining := remaining + [iterators[i][1..]];
      }
      i := i + 1;
    }
    assert iterators[..i] == iterators;
  }

  /** The total number of elements of all the lists. */
  function TotalLength<T>(lists: seq<seq<T>>): nat {
    if lists == [] then 0 else TotalLength(lists[..|lists| - 1]) + |lists[|lists| - 1]|
  }

  /** Every element of every list, as a multiset. */
  function AllElements<T>(lists: seq<seq<T>>): multiset<T> {
    if lists == [] then multiset{} else AllElements(lists[..|lists| - 1]) + multiset(lists[|lists| - 1])
  }

  /** Splitting the first remaining element of each list off its remaining suffix. */
  lemma AllElementsAppend<T>(lists: seq<seq<T>>, extra: seq<seq<T>>)
    requires |extra| <= 1
    ensures AllElements(lists + extra) == AllElements(lists) + AllElements(extra)
  {
    if extra != [] {
      assert (lists + extra)[..|lists + extra| - 1] == lists;
      assert AllElements(extra) == AllElements([]) + multiset(extra[0]);
    } else {
      assert lists + extra == lists;
    }
  }

  lemma {:induction false} SuffixesSplit<T>(lists: seq<seq<T>>, k: nat)
    ensures AllElements(Suffixes(lists, k)) == multiset(Column(lists, k)) + AllElements(Suffixes(lists, k + 1))
  {
    if lists != [] {
      var init := lists[..|lists| - 1];
      SuffixesSplit(init, k);
      var last := lists[|lists| - 1];
      var here: seq<seq<T>> := if |last| > k then [last[k..]] else [];
      var next: seq<seq<T>> := if |last| > k + 1 then [last[k + 1..]] else [];
      var column: seq<T> := if |last| > k then [last[k]] else [];
      assert Suffixes(lists, k) == Suffixes(init, k) + here;
      assert Suffixes(lists, k + 1) == Suffixes(init, k + 1) + next;
      assert Column(lists, k) == Column(init, k) + column;
      AllElementsAppend(Suffixes(init, k), here);
      AllElementsAppend(Suffixes(init, k + 1), next);
      OneListSplit(last, k);
    }
  }

  /** The same split for a single list. */
  lemma OneListSplit<T>(last: seq<T>, k: nat)
    ensures var here: seq<seq<T>> := if |last| > k then [last[k..]] else [];
      var next: seq<seq<T>> := if |last| > k + 1 then [last[k + 1..]] else [];
      var column: seq<T> := if |last| > k then [last[k]] else [];
      AllElements(here) == multiset(column) + AllElements(next)
  {
    var here: seq<seq<T>> := if |last| > k then [last[k..]] else [];
    var next: seq<seq<T>> := if |last| > k + 1 then [last[k + 1..]] else [];
    if |last| > k {
      assert last[k..] == [last[k]] + last[k + 1..];
      assert AllElements(here) == AllElements([]) + multiset(last[k..]);
      if |last| > k + 1 {
        assert AllElements(next) == AllElements([]) + multiset(last[k + 1..]);
      } else {
        assert last[k + 1..] == [];
      }
    }
  }

  /** The rounds from `k` on hold exactly the elements left in the suffixes after `k`. */
  lemma {:induction false} RoundsElements<T>(lists: seq<seq<T>>, k: nat)
    ensures multiset(Rounds(lists, k)) == AllElements(Suffixes(lists, k))
    decreases MaxLength(lists) - k
  {
    if k >= MaxLength(lists) {
      SuffixesEmpty(lists, k);
    } else {
      RoundsElements(lists, k + 1);
      SuffixesSplit(lists, k);
    }
  }

  /** No list is used up before it starts, except the empty ones, which hold nothing. */
  lemma {:induction false} SuffixesFromStart<T>(lists: seq<seq<T>>)
    ensures AllElements(Suffixes(lists, 0)) == AllElements(lists)
  {
    if lists != [] {
      var init := lists[..|lists| - 1];
      SuffixesFromStart(init);
      var last := lists[|lists| - 1];
      var here: seq<seq<T>> := if |last| > 0 then [last[0..]] else [];
      assert Suffixes(lists, 0) == Suffixes(init, 0) + here;
      AllElementsAppend(Suffixes(init, 0), here);
      assert last[0..] == last;
      assert AllElements(here) == multiset(last) by {
        if |last| > 0 {
          assert AllElements(here) == AllElements([]) + multiset(here[0]);
        }
      }
    }
  }

  /** Round-robin concatenation is a permutation of all the elements of all the lists. */
  lemma ConcatIsPermutation<T>(lists: seq<seq<T>>)
    ensures multiset(RoundRobin(lists)) == AllElements(lists)
    ensures |RoundRobin(lists)| == TotalLength(lists)
  {
    RoundsElements(lists, 0);
    SuffixesFromStart(lists);
    SizeOfAll(lists);
  }

  lemma {:induction false} SizeOfAll<T>(lists: seq<seq<T>>)
    ensures |AllElements(lists)| == TotalLength(lists)
  {
    if lists != [] {
      SizeOfAll(lists[..|lists| - 1]);
    }
  }

  /** `constructListOfElements`: the supplied elements without the nulls, in their order. */
  function NonNull<T(!new)>(elements: seq<Option<T>>): (r: seq<T>)
    ensures |r| <= |elements|
    ensures forall x :: x in r <==> Some(x) in elements
  {
    if elements == [] then []
    else
      var rest := NonNull(elements[..|elements| - 1]);
      match elements[|elements| - 1]
      case None => rest
      case Some(x) => rest + [x]
  }

  /** Dropping nulls keeps the order: dropping them from two halves and joining is dropping them from the whole. */
  lemma {:induction false} NonNullDistributes<T(!new)>(a: seq<Option<T>>, b: seq<Option<T>>)
    ensures NonNull(a + b) == NonNull(a) + NonNull(b)
    decreases |b|
  {
    if b == [] {
      assert a + b == a;
    } else {
      var init := b[..|b| - 1];
      NonNullDistributes(a, init);
      assert (a + b)[..|a + b| - 1] == a + init;
    }
  }

  /**
   * `isEmpty` as written: `!isNull(string) || string.equals("")`. A non-null
   * string short-circuits to true; for null the right operand runs and
   * `null.equals("")` throws.
   */
  function IsEmptyAsWritten(s: Option<string>): (r: Result<bool>)
    ensures r.Failure? <==> s.None?
  {
    if s.Some? then Success(true)
    else Failure("NullPointerException")
  }

  /** As written, "e4" counts as empty and null throws. */
  lemma IsEmptyAsWrittenInverted()
    ensures IsEmptyAsWritten(Some("e4")) == Success(true) && !IsEmpty(Some("e4"))
    ensures IsEmptyAsWritten(None).Failure? && IsEmpty(None)
  {
  }

  /** The documented test: true iff the string is null or has no characters. */
  function IsEmpty(s: Option<string>): (r: bool)
    ensures r <==> s.None? || |s.value| == 0
  {
    s.None? || s == Some("")
  }

  /** On every non-empty string the written test answers the negation of the documented one. */
  lemma IsEmptyAsWrittenNegates(s: Option<string>)
    requires s.Some? && s != Some("")
    ensures IsEmptyAsWritten(s) == Success(!IsEmpty(s))
  {
  }

  /** A comparator consistent with Java's contract: swapping its arguments flips the sign of the result. */
  ghost predicate Antisymmetric<T(!new)>(compare: (T, T) -> int) {
    forall a, b :: Sign(compare(a, b)) == -Sign(compare(b, a))
  }

  /** `sortTwoElements` as written: fails unless there are two elements, and swaps them only when the comparison exceeds 1. */
  method SortTwoElementsAsWritten<T>(list: array<T>, compare: (T, T) -> int) returns (r: Outcome)
    modifies list
    ensures r.Fail? <==> list.Length != 2
    ensures r.Pass? && compare(old(list[0]), old(list[1])) > 1 ==> list[..] == [old(list[1]), old(list[0])]
    ensures r.Pass? && compare(old(list[0]), old(list[1])) <= 1 ==> list[..] == old(list[..])
    ensures r.Fail? ==> list[..] == old(list[..])
  {
    if list.Length != 2 {
      return Fail("Expected list of size 2");
    }
    if compare(list[0], list[1]) > 1 {
      list[0], list[1] := list[1], list[0];
    }
    return Pass;
  }

  /** The comparison most comparators give: -1, 0 or 1. */
  function CompareInts(a: int, b: int): int {
    Sign(a - b)
  }

  /** With a comparator that answers 1 for "greater", the written sort leaves `[2, 1]` unsorted. */
  method SortTwoElementsAsWrittenLeavesUnsorted() returns (r: seq<int>)
    ensures r == [2, 1]
  {
    var list := new int[2];
    list[0], list[1] := 2, 1;
    var outcome := SortTwoElementsAsWritten(list, CompareInts);
    r := list[..];
  }

  /** `sortTwoElements` as documented: swaps the two elements when the first compares greater. */
  method SortTwoElements<T(!new)>(list: array<T>, compare: (T, T) -> int) returns (r: Outcome)
    modifies list
    ensures r.Fail? <==> list.Length != 2
    ensures r.Fail? ==> list[..] == old(list[..])
    ensures r.Pass? ==> multiset(list[..]) == multiset(old(list[..]))
    ensures r.Pass? && Antisymmetric(compare) ==> compare(list[0], list[1]) <= 0
  {
    if list.Length != 2 {
      return Fail("Expected list of size 2");
    }
    if compare(list[0], list[1]) > 0 {
      list[0], list[1] := list[1], list[0];
    }
    return Pass;
  }
}
