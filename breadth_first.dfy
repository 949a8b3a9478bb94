/**
 * `dataStructures.BreadthFirstTraversal`: an iterator over the elements
 * reachable through a neighbour function, in breadth-first order. The
 * neighbours of "null" are the start nodes.
 */
module BreadthFirst {
  import opened Wrappers
  import Seqs

  /** The neighbours that are not visited yet, each at its first occurrence, in order. */
  function Unvisited<E(==,!new)>(neighbors: seq<E>, visited: set<E>): (r: seq<E>)
    ensures forall x :: x in r <==> x in neighbors && x !in visited
    ensures Seqs.Distinct(r)
  {
    if neighbors == [] then []
    else
      var init := neighbors[..|neighbors| - 1];
      var x := neighbors[|neighbors| - 1];
      Unvisited(init, visited) + (if x in visited || x in init then [] else [x])
  }

  lemma UnvisitedStep<E(!new)>(neighbors: seq<E>, visited: set<E>, i: nat)
    requires i < |neighbors|
    ensures neighbors[..i + 1][..i] == neighbors[..i]
    ensures Unvisited(neighbors[..i + 1], visited)
      == Unvisited(neighbors[..i], visited) + (if neighbors[i] in visited || neighbors[i] in neighbors[..i] then [] else [neighbors[i]])
  {
    assert neighbors[..i + 1][..i] == neighbors[..i];
  }

  class BreadthFirstTraversal<E(==,!new)> {
    var queue: seq<E>
    var visitedElements: set<E>
    const getNeighbors: Option<E> -> seq<E>
    /** The elements `next` has returned so far. */
    ghost var returned: seq<E>

    /** Every queued element is visited, and the visited ones are those returned or queued. */
    ghost predicate Valid()
      reads this
    {
      && (forall i :: 0 <= i < |queue| ==> queue[i] in visitedElements)
      && (forall x :: x in visitedElements <==> x in returned || x in queue)
    }

    /** No element is queued or returned twice. */
    ghost predicate NoRepeats()
      reads this
    {
      Seqs.Distinct(returned + queue)
    }

    /** The start nodes are the neighbours of null; all are visited and queued. */
    constructor (getNeighbors: Option<E> -> seq<E>)
      ensures Valid()
      ensures this.getNeighbors == getNeighbors
      ensures queue == getNeighbors(None) && returned == []
      ensures forall x :: x in visitedElements <==> x in getNeighbors(None)
      ensures Seqs.Distinct(getNeighbors(None)) ==> NoRepeats()
    {
      var startNodes := getNeighbors(None);
      visitedElements := set x | x in startNodes;
      queue := startNodes;
      this.getNeighbors := getNeighbors;
      returned := [];
      new;
      assert returned + queue == startNodes;
    }

    function HasNext(): (r: bool)
      reads this
      ensures r <==> queue != []
    {
      queue != []
    }

    /**
     * `next`: dequeue the front element, then visit and enqueue each of its
     * neighbours not visited before, in order.
     */
    method Next() returns (current: E)
      requires Valid() && HasNext()
      modifies this
      ensures Valid()
      ensures current == old(queue[0]) && returned == old(returned) + [current]
      ensures queue == old(queue[1..]) + Unvisited(getNeighbors(Some(current)), old(visitedElements))
      ensures forall x :: x in visitedElements <==> x in old(visitedElements) || x in getNeighbors(Some(current))
      ensures old(NoRepeats()) ==> NoRepeats()
    {
      current := queue[0];
      assert old(returned + queue) == old(returned) + [current] + queue[1..];
      queue := queue[1..];
      returned := returned + [current];
      ghost var before := returned + queue;
      Enqueue(getNeighbors(Some(current)));
      ghost var added := Unvisited(getNeighbors(Some(current)), old(visitedElements));
      assert returned + queue == before + added;
      if old(NoRepeats()) {
        DistinctAppend(before, added, old(visitedElements));
      }
    }

    /** Visit and enqueue each neighbour not visited before, in order. */
    method Enqueue(neighbors: seq<E>)
      modifies this
      ensures returned == old(returned)
      ensures visitedElements == old(visitedElements) + set x | x in neighbors
      ensures queue == old(queue) + Unvisited(neighbors, old(visitedElements))
    {
      var i := 0;
      while i < |neighbors|
        invariant 0 <= i <= |neighbors|
        invariant returned == old(returned)
        invariant visitedElements == old(visitedElements) + set x | x in neighbors[..i]
        invariant queue == old(queue) + Unvisited(neighbors[..i], old(visitedElements))
      {
        UnvisitedStep(neighbors, old(visitedElements), i);
        var neighbor := neighbors[i];
        if neighbor !in visitedElements {
          visitedElements := visitedElements + {neighbor};
          queue := queue + [neighbor];
        }
        i := i + 1;
      }
      assert neighbors[..i] == neighbors;
    }
  }

  /** Appending elements that were not visited to visited ones that do not repeat keeps them from repeating. */
  lemma DistinctAppend<E(!new)>(before: seq<E>, added: seq<E>, visited: set<E>)
    requires Seqs.Distinct(before) && Seqs.Distinct(added)
    requires forall i :: 0 <= i < |before| ==> before[i] in visited
    requires forall x :: x in added ==> x !in visited
    ensures Seqs.Distinct(before + added)
  {
    forall j, k | 0 <= j < k < |before + added|
      ensures (before + added)[j] != (before + added)[k]
    {
      if j < |before| <= k {
        assert (before + added)[k] == added[k - |before|];
      }
    }
  }

  /** Each `next` returns the element that was at the head of the queue: first in, first out. */
  method TwoSteps<E(==,!new)>(t: BreadthFirstTraversal<E>) returns (a: E, b: E)
    requires t.Valid() && |t.queue| >= 2
    modifies t
    ensures a == old(t.queue[0]) && b == old(t.queue[1])
  {
    a := t.Next();
    b := t.Next();
  }
}
