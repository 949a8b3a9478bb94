/**
 * `moveCalculationStructures.EvenlySpacedCircleImpl`: the squares around a
 * centre square (a knight's jumps, a king's steps), at most one in each of the
 * sixteen sectors around the centre, kept in the order they were added.
 */
module EvenlySpacedCircles {
  import opened Wrappers
  import opened Squares
  import opened SixteenthSectors

  /** `SixteenthSector.getRelation`: the sector of `s` as seen from `center`. */
  function SectorOfSquare(center: Square, s: Square): Sector
    requires s != center
  {
    SectorOf(s.file - center.file, s.rank - center.rank)
  }

  /** The rings the constructor accepts: at most 8 squares, none of them the centre, no two in one sector. */
  predicate Placeable(center: Square, ring: seq<Square>) {
    && |ring| <= 8
    && (forall i :: 0 <= i < |ring| ==> ring[i] != center)
    && (forall i, j :: 0 <= i < j < |ring| ==> SectorOfSquare(center, ring[i]) != SectorOfSquare(center, ring[j]))
  }

  /**
   * The `relations` map the constructor loop builds from `ring`: each square
   * under its sector, a later square replacing an earlier one in its sector.
   */
  function SectorMap(center: Square, ring: seq<Square>): (m: map<Sector, Square>)
    requires forall i :: 0 <= i < |ring| ==> ring[i] != center
    ensures forall k :: k in m ==> exists i :: 0 <= i < |ring| && SectorOfSquare(center, ring[i]) == k && m[k] == ring[i]
  {
    if ring == [] then map[]
    else
      var init := ring[..|ring| - 1];
      var last := ring[|ring| - 1];
      var m := SectorMap(center, init);
      assert forall i :: 0 <= i < |init| ==> init[i] == ring[i];
      m[SectorOfSquare(center, last) := last]
  }

  /** Every square of the ring has its sector in the map. */
  lemma {:induction false} SectorMapHas(center: Square, ring: seq<Square>, i: nat)
    requires (forall j :: 0 <= j < |ring| ==> ring[j] != center) && i < |ring|
    ensures SectorOfSquare(center, ring[i]) in SectorMap(center, ring)
  {
    var init := ring[..|ring| - 1];
    if i < |ring| - 1 {
      assert init[i] == ring[i];
      SectorMapHas(center, init, i);
    }
  }

  /** In an accepted ring every square is found under its own sector. */
  lemma {:induction false} SectorMapFinds(center: Square, ring: seq<Square>, i: nat)
    requires Placeable(center, ring) && i < |ring|
    ensures SectorOfSquare(center, ring[i]) in SectorMap(center, ring)
    ensures SectorMap(center, ring)[SectorOfSquare(center, ring[i])] == ring[i]
  {
    SectorMapHas(center, ring, i);
    var init := ring[..|ring| - 1];
    if i < |ring| - 1 {
      assert init[i] == ring[i];
      assert Placeable(center, init) by {
        assert forall j :: 0 <= j < |init| ==> init[j] == ring[j];
      }
      SectorMapFinds(center, init, i);
    }
  }

  /** In an accepted ring the map holds one entry per square: its size is the ring's length. */
  lemma {:induction false} SectorMapSize(center: Square, ring: seq<Square>)
    requires Placeable(center, ring)
    ensures |SectorMap(center, ring)| == |ring|
  {
    if ring != [] {
      var init := ring[..|ring| - 1];
      var last := ring[|ring| - 1];
      assert forall j :: 0 <= j < |init| ==> init[j] == ring[j];
      assert Placeable(center, init);
      SectorMapSize(center, init);
      assert SectorOfSquare(center, last) !in SectorMap(center, init);
    }
  }

  /** One more square in a free sector keeps a ring acceptable and adds it to the map. */
  lemma PlaceableAppend(center: Square, ring: seq<Square>, s: Square)
    requires |ring| < 8 && Placeable(center, ring) && s != center
    requires SectorOfSquare(center, s) !in SectorMap(center, ring)
    ensures Placeable(center, ring + [s])
    ensures SectorMap(center, ring + [s]) == SectorMap(center, ring)[SectorOfSquare(center, s) := s]
  {
    var longer := ring + [s];
    assert longer[..|ring|] == ring;
    forall j | 0 <= j < |ring|
      ensures SectorOfSquare(center, ring[j]) != SectorOfSquare(center, s)
    {
      SectorMapHas(center, ring, j);
    }
  }

  /** A square whose sector an earlier square took makes the longer ring unacceptable. */
  lemma SectorTaken(center: Square, ring: seq<Square>, s: Square)
    requires s != center && Placeable(center, ring)
    requires SectorOfSquare(center, s) in SectorMap(center, ring)
    ensures !Placeable(center, ring + [s])
  {
    var j :| 0 <= j < |ring| && SectorOfSquare(center, ring[j]) == SectorOfSquare(center, s);
    assert (ring + [s])[j] == ring[j] && (ring + [s])[|ring|] == s;
  }

  /** Every prefix of an acceptable ring is acceptable. */
  lemma PrefixPlaceable(center: Square, ring: seq<Square>, n: nat)
    requires n <= |ring| && Placeable(center, ring)
    ensures Placeable(center, ring[..n])
  {
    assert forall j :: 0 <= j < n ==> ring[..n][j] == ring[j];
  }

  /** The squares of the occupied sectors among `sectors`, in the order of `sectors`. */
  function Occupants(relations: map<Sector, Square>, sectors: seq<Sector>): (r: seq<Square>)
    ensures |r| <= |sectors|
    ensures forall s :: s in r <==> exists k :: k in sectors && k in relations && relations[k] == s
  {
    if sectors == [] then []
    else (if sectors[0] in relations then [relations[sectors[0]]] else []) + Occupants(relations, sectors[1..])
  }

  class EvenlySpacedCircle {
    var relations: map<Sector, Square>
    var addedSquares: seq<Square>
    const center: Square

    /** The map holds exactly the added squares, each under its sector. */
    ghost predicate Valid()
      reads this
    {
      Placeable(center, addedSquares) && relations == SectorMap(center, addedSquares)
    }

    /** The field initialisers: an empty map and an empty list. */
    constructor (center: Square)
      ensures Valid() && this.center == center
      ensures relations == map[] && addedSquares == []
    {
      relations := map[];
      addedSquares := [];
      this.center := center;
    }

    /**
     * The loop of the constructor: fail on more than 8 squares, on a square
     * whose sector has no relation to the centre (the centre itself), or on a
     * square whose sector is already taken; otherwise map and append each.
     */
    method AddRing(ring: seq<Square>) returns (r: Outcome)
      requires Valid() && addedSquares == []
      modifies this
      ensures r.Pass? <==> Placeable(center, ring)
      ensures r.Pass? ==> Valid() && addedSquares == ring && relations == SectorMap(center, ring)
    {
      if |ring| > 8 {
        return Fail("Expected at most 8 squares");
      }
      var i := 0;
      while i < |ring|
        invariant 0 <= i <= |ring|
        invariant Valid() && addedSquares == ring[..i]
      {
        var added := Put(ring[i]);
        assert ring[..i + 1] == ring[..i] + [ring[i]];
        if added.Fail? {
          if Placeable(center, ring) {
            PrefixPlaceable(center, ring, i + 1);
          }
          return added;
        }
        i := i + 1;
      }
      assert ring[..i] == ring;
      return Pass;
    }

    /** One round of the constructor loop: map and append `squareToAdd`, or fail on it. */
    method Put(squareToAdd: Square) returns (r: Outcome)
      requires Valid() && |addedSquares| < 8
      modifies this
      ensures r.Fail? ==> !Placeable(center, old(addedSquares) + [squareToAdd])
      ensures r.Pass? ==> Valid() && addedSquares == old(addedSquares) + [squareToAdd]
    {
      var sector := Relation(center, squareToAdd);
      if sector.Failure? {
        assert (addedSquares + [squareToAdd])[|addedSquares|] == center;
        return Fail(sector.error);
      }
      if sector.value in relations {
        SectorTaken(center, addedSquares, squareToAdd);
        return Fail("The whole point of an EvenlySpacedCircle is to have one square in each sector");
      }
      PlaceableAppend(center, addedSquares, squareToAdd);
      assert sector.value == SectorOfSquare(center, squareToAdd);
      relations := relations[sector.value := squareToAdd];
      addedSquares := addedSquares + [squareToAdd];
      assert Placeable(center, addedSquares) && relations == SectorMap(center, addedSquares);
      return Pass;
    }

    /** Iteration goes over the added squares in insertion order. */
    function Iterate(): (r: seq<Square>)
      reads this
      ensures r == addedSquares
    {
      addedSquares
    }

    /**
     * `getNearestSquares`: the square in the sector of `remote` if there is
     * one; otherwise the squares in the sectors nearest to it, in the order
     * of `getNearestSectors`. Asking about the centre itself throws.
     */
    function NearestSquares(remote: Square): (r: Result<seq<Square>>)
      requires Valid()
      reads this
      ensures r.Failure? <==> remote == center
      ensures r.Success? ==> forall s :: s in r.value ==> s in addedSquares
      ensures r.Success? && SectorOfSquare(center, remote) in relations ==>
        r.value == [relations[SectorOfSquare(center, remote)]]
      ensures r.Success? && SectorOfSquare(center, remote) !in relations ==>
        forall s :: s in r.value <==> exists k :: k in NearestSectors(SectorOfSquare(center, remote)) && k in relations && relations[k] == s
    {
      if remote == center then Failure("Expected a non zero increment")
      else
        var containingSector := SectorOfSquare(center, remote);
        if containingSector in relations then Success([relations[containingSector]])
        else Success(Occupants(relations, NearestSectors(containingSector)))
    }
  }

  /** `new EvenlySpacedCircleImpl(center, ring)`: the circle, or the exception the constructor throws. */
  method NewEvenlySpacedCircle(center: Square, ring: seq<Square>) returns (r: Result<EvenlySpacedCircle>)
    ensures r.Success? <==> Placeable(center, ring)
    ensures r.Success? ==> (fresh(r.value) && r.value.Valid() && r.value.center == center
      && r.value.addedSquares == ring && |r.value.relations| == |ring|)
  {
    var circle := new EvenlySpacedCircle(center);
    var added := circle.AddRing(ring);
    if added.Fail? {
      return Failure(added.error);
    }
    SectorMapSize(center, ring);
    return Success(circle);
  }
}
