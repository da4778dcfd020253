/** `CheckSubTileConfigurationCoplanarity`: group sub-tile intervals by their
    minimum corner, then decide whether the (at most four) distinct corners of
    a tile's sub-tiles lie in one of the planes the pipeline expects. */
module Coplanarity {
  import opened Base
  import opened Geometry
  import opened Tuples

  type Corner = ComparableTuple<int>

  /** The key of an interval: its minimum corner as a tuple. */
  function CornerOf(b: Box): Corner {
    ComparableTuple(b.min)
  }

  /** All intervals have the dimensionality of the first one. */
  predicate SameDimensionality(intervals: seq<Box>) {
    forall i :: 0 <= i < |intervals| ==> |intervals[i].min| == |intervals[0].min|
  }

  /** The grouping as a fold over the intervals: each interval adds one to the
      count of its corner. */
  function Grouping(intervals: seq<Box>): map<Corner, nat>
    decreases |intervals|
  {
    if |intervals| == 0 then map[]
    else
      var m := Grouping(intervals[..|intervals| - 1]);
      var key := CornerOf(intervals[|intervals| - 1]);
      m[key := (if key in m then m[key] else 0) + 1]
  }

  /** How many of the intervals have corner `key`. */
  function Occurrences(intervals: seq<Box>, key: Corner): nat
    decreases |intervals|
  {
    if |intervals| == 0 then 0
    else Occurrences(intervals[..|intervals| - 1], key) + (if CornerOf(intervals[|intervals| - 1]) == key then 1 else 0)
  }

  /** The grouping maps each distinct corner to the number of intervals that
      have it, and no other key appears. */
  lemma {:induction false} GroupingCounts(intervals: seq<Box>, key: Corner)
    ensures key in Grouping(intervals) <==> exists i :: 0 <= i < |intervals| && CornerOf(intervals[i]) == key
    ensures key in Grouping(intervals) ==> Grouping(intervals)[key] == Occurrences(intervals, key)
    ensures key !in Grouping(intervals) ==> Occurrences(intervals, key) == 0
    decreases |intervals|
  {
    if |intervals| != 0 {
      var prefix := intervals[..|intervals| - 1];
      GroupingCounts(prefix, key);
      assert forall i :: 0 <= i < |prefix| ==> prefix[i] == intervals[i];
      if exists i :: 0 <= i < |intervals| && CornerOf(intervals[i]) == key {
        var i :| 0 <= i < |intervals| && CornerOf(intervals[i]) == key;
        if i < |prefix| {
          assert CornerOf(prefix[i]) == key;
        }
      }
    }
  }

  /** The counts add up to the number of intervals. */
  lemma {:induction false} GroupingSum(intervals: seq<Box>)
    ensures MapSum(Grouping(intervals)) == |intervals|
    decreases |intervals|
  {
    if |intervals| != 0 {
      var prefix := intervals[..|intervals| - 1];
      GroupingSum(prefix);
      MapSumAdd(Grouping(prefix), CornerOf(intervals[|intervals| - 1]), 1);
    }
  }

  /** `groupSubTilesByTheirLocalPosition`.  Keys of a `TreeMap` are compared
      with `ComparableTuple.compareTo`, which throws for tuples of different
      lengths: the grouping fails as soon as a corner of another
      dimensionality than the first meets the non-empty map. */
  method GroupSubTilesByTheirLocalPosition(intervals: seq<Box>) returns (r: Result<map<Corner, nat>, TupleError>)
    ensures r.Err? <==> !SameDimensionality(intervals)
    ensures r.Ok? ==> r.value == Grouping(intervals)
  {
    var groups: map<Corner, nat> := map[];
    for i := 0 to |intervals|
      invariant groups == Grouping(intervals[..i])
      invariant forall j :: 0 <= j < i ==> |intervals[j].min| == |intervals[0].min|
    {
      var key := CornerOf(intervals[i]);
      if i > 0 && CompareTo(key, CornerOf(intervals[0]), (x: int, y: int) => x - y).Err? {
        return Err(IllegalArgument);
      }
      assert intervals[..i + 1][..i] == intervals[..i];
      groups := groups[key := (if key in groups then groups[key] else 0) + 1];
    }
    assert intervals[..|intervals|] == intervals;
    r := Ok(groups);
  }

  // ----- The decision procedure on the set of distinct corners -----

  /** The two axes other than `d`, in increasing order. */
  function OtherAxis1(d: nat): nat { if d == 0 then 1 else 0 }
  function OtherAxis2(d: nat): nat { if d == 2 then 1 else 2 }

  predicate ThreeDimensional(keys: set<Corner>) {
    forall k :: k in keys ==> Length(k) == 3
  }

  /** The keys of one `TreeMap` all have one length (a key of another length
      could not have been inserted). */
  predicate UniformLength(keys: set<Corner>) {
    forall a, b :: a in keys && b in keys ==> Length(a) == Length(b)
  }

  /** The coordinates the corners take on axis `d`. */
  function AxisValues(keys: set<Corner>, d: nat): set<int>
    requires ThreeDimensional(keys) && d < 3
  {
    set k | k in keys :: k.values[d]
  }

  /** A corner's coordinates on the two axes other than `d`. */
  function Projection(k: Corner, d: nat): Corner
    requires Length(k) == 3 && d < 3
  {
    ComparableTuple([k.values[OtherAxis1(d)], k.values[OtherAxis2(d)]])
  }

  function Subgroups(keys: set<Corner>, d: nat): set<Corner>
    requires ThreeDimensional(keys) && d < 3
  {
    set k | k in keys :: Projection(k, d)
  }

  /** The corners whose projection is `g`. */
  function Subgroup(keys: set<Corner>, d: nat, g: Corner): set<Corner>
    requires ThreeDimensional(keys) && d < 3
  {
    set k | k in keys && Projection(k, d) == g
  }

  /** `subgroups` as the source accumulates it: projection to number of corners. */
  function SubgroupCounts(keys: set<Corner>, d: nat): map<Corner, nat>
    requires ThreeDimensional(keys) && d < 3
  {
    map g | g in Subgroups(keys, d) :: |Subgroup(keys, d, g)|
  }

  /** The value comparison the tilted-plane test is meant to make. */
  function ValueDiffers(a: int, b: int): bool { a != b }

  /** What `Long != Long` compares: object identity.  The two operands are
      boxed separately, and boxing shares objects only for values in
      [-128, 127], so equal values outside that range are different objects. */
  function ReferenceDiffers(a: int, b: int): bool { a != b || !(-128 <= a <= 127) }

  /** Every corner has equal coordinates on the two axes other than `d`,
      as decided by `differs`. */
  predicate Diagonal(keys: set<Corner>, d: nat, differs: (int, int) -> bool)
    requires ThreeDimensional(keys) && d < 3
  {
    forall k :: k in keys ==> !differs(k.values[OtherAxis1(d)], k.values[OtherAxis2(d)])
  }

  datatype CoplanarityError = IncorrectDimensionality | UnexpectedSplit

  /** The second loop of `checkCoplanarity`, from axis `d` on. */
  function TiltedPlane(keys: set<Corner>, d: nat, differs: (int, int) -> bool): Result<bool, CoplanarityError>
    requires ThreeDimensional(keys) && d <= 3
    decreases 3 - d
  {
    if d == 3 then Ok(false)
    else if !Diagonal(keys, d, differs) || |SubgroupCounts(keys, d)| != 2 then TiltedPlane(keys, d + 1, differs)
    else if forall g :: g in SubgroupCounts(keys, d) ==> SubgroupCounts(keys, d)[g] == 2 then Ok(true)
    else Err(UnexpectedSplit)
  }

  /** `checkCoplanarity` on the corners, with the comparison of the
      tilted-plane test as a parameter. */
  function CoplanarityWith(keys: set<Corner>, differs: (int, int) -> bool): Result<bool, CoplanarityError>
    requires UniformLength(keys)
  {
    if keys != {} && exists k :: k in keys && Length(k) != 3 then Err(IncorrectDimensionality)
    else if |keys| < 4 then Ok(true)
    else if |keys| > 4 then Ok(false)
    else if exists d :: 0 <= d < 3 && |AxisValues(keys, d)| <= 1 then Ok(true)
    else TiltedPlane(keys, 0, differs)
  }

  /** The decision with value comparison: what the rest of the model uses. */
  function Coplanarity(keys: set<Corner>): Result<bool, CoplanarityError>
    requires UniformLength(keys)
  {
    CoplanarityWith(keys, ValueDiffers)
  }

  /** The decision as written, comparing boxed `Long`s by identity. */
  function CoplanarityAsWritten(keys: set<Corner>): Result<bool, CoplanarityError>
    requires UniformLength(keys)
  {
    CoplanarityWith(keys, ReferenceDiffers)
  }

  // ----- The method -----

  /** The corners of `seen + {k}` with projection `g`. */
  lemma SubgroupInsert(seen: set<Corner>, k: Corner, d: nat, g: Corner)
    requires ThreeDimensional(seen + {k}) && d < 3
    ensures ThreeDimensional(seen)
    ensures Subgroup(seen + {k}, d, g) == if Projection(k, d) == g then Subgroup(seen, d, g) + {k} else Subgroup(seen, d, g)
  {
  }

  /** The projections of `seen + {k}`. */
  lemma SubgroupsInsert(seen: set<Corner>, k: Corner, d: nat)
    requires ThreeDimensional(seen + {k}) && d < 3
    ensures ThreeDimensional(seen)
    ensures Subgroups(seen + {k}, d) == Subgroups(seen, d) + {Projection(k, d)}
  {
  }

  /** `m` holds, for each projection of `keys` on the two axes other than
      `d`, how many corners of `keys` have that projection. */
  ghost predicate CountsOf(m: map<Corner, nat>, keys: set<Corner>, d: nat)
    requires ThreeDimensional(keys) && d < 3
  {
    && (forall g :: g in m <==> g in Subgroups(keys, d))
    && (forall g :: g in m ==> m[g] == |Subgroup(keys, d, g)|)
  }

  /** The counts are exactly the map `SubgroupCounts` defines. */
  lemma CountsOfIsSubgroupCounts(m: map<Corner, nat>, keys: set<Corner>, d: nat)
    requires ThreeDimensional(keys) && d < 3 && CountsOf(m, keys, d)
    ensures m == SubgroupCounts(keys, d)
  {
    assert m.Keys == SubgroupCounts(keys, d).Keys;
  }

  /** Inserting one corner into the corners already seen adds one to the
      count of its projection (the `getOrDefault(subgroup, 0) + 1` step). */
  lemma SubgroupCountsInsert(m: map<Corner, nat>, seen: set<Corner>, k: Corner, d: nat)
    requires ThreeDimensional(seen) && ThreeDimensional(seen + {k}) && k !in seen && d < 3
    requires CountsOf(m, seen, d)
    ensures var p := Projection(k, d);
      CountsOf(m[p := (if p in m then m[p] else 0) + 1], seen + {k}, d)
  {
    var p := Projection(k, d);
    var m' := m[p := (if p in m then m[p] else 0) + 1];
    SubgroupsInsert(seen, k, d);
    forall g | g in m'
      ensures m'[g] == |Subgroup(seen + {k}, d, g)|
    {
      SubgroupCountInsert(seen, k, d, g);
    }
  }

  /** The count for projection `g` after inserting `k`. */
  lemma SubgroupCountInsert(seen: set<Corner>, k: Corner, d: nat, g: Corner)
    requires ThreeDimensional(seen + {k}) && k !in seen && d < 3
    ensures ThreeDimensional(seen)
    ensures |Subgroup(seen + {k}, d, g)| == |Subgroup(seen, d, g)| + (if Projection(k, d) == g then 1 else 0)
    ensures g !in Subgroups(seen, d) ==> |Subgroup(seen, d, g)| == 0
  {
    SubgroupInsert(seen, k, d, g);
    assert k !in Subgroup(seen, d, g);
    if g !in Subgroups(seen, d) {
      assert Subgroup(seen, d, g) == {};
    }
  }

  /** The coordinates the corners take on axis `d` (the inner loop of the
      source's first test). */
  method CollectAxisValues(keys: set<Corner>, d: nat) returns (positions: set<int>)
    requires ThreeDimensional(keys) && d < 3
    ensures positions == AxisValues(keys, d)
  {
    positions := {};
    var rest := keys;
    while rest != {}
      invariant rest <= keys
      invariant positions == AxisValues(keys - rest, d)
      decreases |rest|
    {
      var k :| k in rest;
      assert keys - (rest - {k}) == (keys - rest) + {k};
      positions := positions + {GetValue(k, d)};
      rest := rest - {k};
    }
    assert keys - rest == keys;
  }

  /** The inner loop of the source's second test: give up (`continue A`) at
      the first corner off the diagonal, otherwise count the corners per
      projection. */
  method CollectSubgroups(keys: set<Corner>, d: nat) returns (diagonal: bool, subgroups: map<Corner, nat>)
    requires ThreeDimensional(keys) && d < 3
    ensures diagonal == Diagonal(keys, d, ValueDiffers)
    ensures diagonal ==> subgroups == SubgroupCounts(keys, d)
  {
    subgroups := map[];
    var rest := keys;
    diagonal := true;
    while rest != {} && diagonal
      invariant rest <= keys
      invariant diagonal ==> CountsOf(subgroups, keys - rest, d) && Diagonal(keys - rest, d, ValueDiffers)
      invariant !diagonal ==> !Diagonal(keys, d, ValueDiffers)
      decreases |rest|, diagonal
    {
      var k :| k in rest;
      var subgroup := Projection(k, d);
      if GetValue(subgroup, 0) != GetValue(subgroup, 1) {
        diagonal := false;
      } else {
        CollectSubgroupsStep(keys, rest, k, d, subgroups);
        subgroups := subgroups[subgroup := (if subgroup in subgroups then subgroups[subgroup] else 0) + 1];
        rest := rest - {k};
      }
    }
    if diagonal {
      assert keys - rest == keys;
      CountsOfIsSubgroupCounts(subgroups, keys, d);
    }
  }

  /** One corner on the diagonal moves from `rest` to the corners counted. */
  lemma CollectSubgroupsStep(keys: set<Corner>, rest: set<Corner>, k: Corner, d: nat, m: map<Corner, nat>)
    requires ThreeDimensional(keys) && d < 3 && rest <= keys && k in rest
    requires Diagonal(keys - rest, d, ValueDiffers) && CountsOf(m, keys - rest, d)
    requires !ValueDiffers(k.values[OtherAxis1(d)], k.values[OtherAxis2(d)])
    ensures Diagonal(keys - (rest - {k}), d, ValueDiffers)
    ensures var p := Projection(k, d);
      CountsOf(m[p := (if p in m then m[p] else 0) + 1], keys - (rest - {k}), d)
  {
    assert keys - (rest - {k}) == (keys - rest) + {k};
    SubgroupCountsInsert(m, keys - rest, k, d);
  }

  /** `checkCoplanarity`, iterating over the keys of the grouping; only the
      set of distinct corners matters, not how many sub-tiles share each. */
  method CheckCoplanarity(groups: map<Corner, nat>) returns (r: Result<bool, CoplanarityError>)
    requires UniformLength(groups.Keys)
    ensures r == Coplanarity(groups.Keys)
  {
    var keys := groups.Keys;
    if keys != {} {
      var first :| first in keys;
      if Length(first) != 3 {
        return Err(IncorrectDimensionality);
      }
    }
    if |keys| < 4 {
      return Ok(true);
    }
    if |keys| > 4 {
      return Ok(false);
    }
    // 1) the four corners share their coordinate on one axis
    for d := 0 to 3
      invariant forall e :: 0 <= e < d ==> |AxisValues(keys, e)| > 1
    {
      var positions := CollectAxisValues(keys, d);
      if |positions| <= 1 {
        return Ok(true);
      }
    }
    // 2) the corners form two subgroups on a plane tilted by 45 degrees
    for d := 0 to 3
      invariant TiltedPlane(keys, d, ValueDiffers) == TiltedPlane(keys, 0, ValueDiffers)
    {
      var diagonal, subgroups := CollectSubgroups(keys, d);
      if diagonal && |subgroups| == 2 {
        if forall g | g in subgroups :: subgroups[g] == 2 {
          return Ok(true);
        } else {
          return Err(UnexpectedSplit);
        }
      }
    }
    r := Ok(false);
  }

  // ----- What the decision means -----

  /** All corners share their coordinate on axis `d`. */
  predicate SharedCoordinate(keys: set<Corner>, d: nat)
    requires ThreeDimensional(keys) && d < 3
  {
    forall a, b :: a in keys && b in keys ==> a.values[d] == b.values[d]
  }

  /** A single coordinate on axis `d` (the set the source collects has at most
      one element) means every two corners agree on that axis. */
  lemma AxisValuesAtMostOne(keys: set<Corner>, d: nat)
    requires ThreeDimensional(keys) && d < 3
    ensures |AxisValues(keys, d)| <= 1 <==> SharedCoordinate(keys, d)
  {
    var values := AxisValues(keys, d);
    if a, b :| a in keys && b in keys && a.values[d] != b.values[d] {
      var two := {a.values[d], b.values[d]};
      assert |two| == 2;
      assert two <= values;
      assert |values| == |two| + |values - two|;
    } else if keys != {} {
      var a :| a in keys;
      assert values == {a.values[d]};
    } else {
      assert values == {};
    }
  }

  /** With four corners in exactly two subgroups, the subgroups hold all four
      corners between them and each at least one: the split is 2 + 2 (the
      tilted plane) or 1 + 3 (the error case). */
  lemma TwoSubgroupsSplitFour(keys: set<Corner>, d: nat)
    requires ThreeDimensional(keys) && d < 3 && |keys| == 4
    requires |SubgroupCounts(keys, d)| == 2
    ensures forall g :: g in SubgroupCounts(keys, d) ==> 1 <= SubgroupCounts(keys, d)[g] <= 3
    ensures forall g, h :: g in SubgroupCounts(keys, d) && h in SubgroupCounts(keys, d) && g != h ==>
              SubgroupCounts(keys, d)[g] + SubgroupCounts(keys, d)[h] == 4
  {
    var c := SubgroupCounts(keys, d);
    assert c.Keys == Subgroups(keys, d);
    forall g, h | g in c && h in c && g != h
      ensures c[g] + c[h] == 4
    {
      TwoSubgroupsPartition(keys, d, g, h);
    }
    forall g | g in c
      ensures 1 <= c[g] <= 3
    {
      var k :| k in keys && Projection(k, d) == g;
      assert k in Subgroup(keys, d, g);
      var h :| h in c && h != g by {
        assert |c.Keys - {g}| == 1;
      }
      var kh :| kh in keys && Projection(kh, d) == h;
      assert kh in Subgroup(keys, d, h);
      TwoSubgroupsPartition(keys, d, g, h);
    }
  }

  /** Two distinct projections that are the only ones split the corners. */
  lemma TwoSubgroupsPartition(keys: set<Corner>, d: nat, g: Corner, h: Corner)
    requires ThreeDimensional(keys) && d < 3
    requires |Subgroups(keys, d)| == 2 && g in Subgroups(keys, d) && h in Subgroups(keys, d) && g != h
    ensures |Subgroup(keys, d, g)| + |Subgroup(keys, d, h)| == |keys|
  {
    var a, b := Subgroup(keys, d, g), Subgroup(keys, d, h);
    assert Subgroups(keys, d) == {g, h} by {
      assert {g, h} <= Subgroups(keys, d);
      assert |Subgroups(keys, d) - {g, h}| == 0;
    }
    forall k | k in keys
      ensures k in a + b
    {
      assert Projection(k, d) in Subgroups(keys, d);
    }
    assert a + b == keys;
    assert a * b == {};
  }

  /** The tilted-plane test succeeds only for corners that all have equal
      coordinates on the two axes other than some `d`, that is, corners on the
      plane through the tile's diagonal. */
  lemma {:induction false} TiltedPlaneIsDiagonal(keys: set<Corner>, d: nat, differs: (int, int) -> bool)
    requires ThreeDimensional(keys) && d <= 3
    requires TiltedPlane(keys, d, differs) == Ok(true)
    ensures exists e :: d <= e < 3 && Diagonal(keys, e, differs)
    decreases 3 - d
  {
    if d == 3 {
      assert false;
    } else if Diagonal(keys, d, differs) {
      assert d <= d < 3 && Diagonal(keys, d, differs);
    } else {
      assert TiltedPlane(keys, d, differs) == TiltedPlane(keys, d + 1, differs);
      TiltedPlaneIsDiagonal(keys, d + 1, differs);
      var e :| d + 1 <= e < 3 && Diagonal(keys, e, differs);
      assert d <= e < 3;
    }
  }

  /** Whenever four corners are accepted, they lie on one plane: one axis
      where they all share a coordinate, or the diagonal plane of two axes. */
  lemma CoplanarFourCornersLieOnAPlane(keys: set<Corner>)
    requires UniformLength(keys) && |keys| == 4
    requires Coplanarity(keys) == Ok(true)
    ensures ThreeDimensional(keys)
    ensures exists d :: 0 <= d < 3 && (SharedCoordinate(keys, d) || Diagonal(keys, d, ValueDiffers))
  {
    if d :| 0 <= d < 3 && |AxisValues(keys, d)| <= 1 {
      AxisValuesAtMostOne(keys, d);
    } else {
      TiltedPlaneIsDiagonal(keys, 0, ValueDiffers);
    }
  }

  // ----- The boxed comparison -----

  /** On coordinates in [-128, 127] the two comparisons agree, so the
      decision as written is the intended one. */
  lemma {:induction false} TiltedPlaneAgreesInCacheRange(keys: set<Corner>, d: nat)
    requires ThreeDimensional(keys) && d <= 3
    requires forall k, i :: k in keys && 0 <= i < 3 ==> -128 <= k.values[i] <= 127
    ensures TiltedPlane(keys, d, ReferenceDiffers) == TiltedPlane(keys, d, ValueDiffers)
    decreases 3 - d
  {
    if d < 3 {
      assert Diagonal(keys, d, ReferenceDiffers) == Diagonal(keys, d, ValueDiffers);
      TiltedPlaneAgreesInCacheRange(keys, d + 1);
    }
  }

  lemma ReferenceComparisonAgreesInCacheRange(keys: set<Corner>)
    requires UniformLength(keys)
    requires forall k, i :: k in keys && 0 <= i < Length(k) ==> -128 <= k.values[i] <= 127
    ensures CoplanarityAsWritten(keys) == Coplanarity(keys)
  {
    if ThreeDimensional(keys) {
      TiltedPlaneAgreesInCacheRange(keys, 0);
    }
  }

  /** Four sub-tiles on the plane y == z, with coordinates above 127. */
  function TiltedCorners(): set<Corner> {
    {ComparableTuple([0, 200, 200]), ComparableTuple([1, 200, 200]),
     ComparableTuple([0, 300, 300]), ComparableTuple([1, 300, 300])}
  }

  /** The corners are four, on no common axis value, and on no diagonal as
      the boxed comparison sees them. */
  lemma TiltedCornersShape()
    ensures UniformLength(TiltedCorners()) && ThreeDimensional(TiltedCorners())
    ensures |TiltedCorners()| == 4
    ensures forall d :: 0 <= d < 3 ==> |AxisValues(TiltedCorners(), d)| == 2
    ensures forall d :: 0 <= d < 3 ==> !Diagonal(TiltedCorners(), d, ReferenceDiffers)
  {
    TiltedCornersFour();
    TiltedAxisValues(0);
    TiltedAxisValues(1);
    TiltedAxisValues(2);
    TiltedCornersOffDiagonal();
  }

  lemma TiltedCornersFour()
    ensures UniformLength(TiltedCorners()) && ThreeDimensional(TiltedCorners())
    ensures |TiltedCorners()| == 4
  {
    var a, b, c, e := ComparableTuple([0, 200, 200]), ComparableTuple([1, 200, 200]),
                      ComparableTuple([0, 300, 300]), ComparableTuple([1, 300, 300]);
    assert a.values[0] != b.values[0] && c.values[0] != e.values[0];
    assert a.values[1] != c.values[1] && a.values[1] != e.values[1];
    assert b.values[1] != c.values[1] && b.values[1] != e.values[1];
  }

  lemma TiltedAxisValues(d: nat)
    requires d < 3
    ensures ThreeDimensional(TiltedCorners())
    ensures AxisValues(TiltedCorners(), d) == if d == 0 then {0, 1} else {200, 300}
  {
    var a, e := ComparableTuple([0, 200, 200]), ComparableTuple([1, 300, 300]);
    assert a in TiltedCorners() && e in TiltedCorners();
  }

  lemma TiltedCornersOffDiagonal()
    ensures ThreeDimensional(TiltedCorners())
    ensures forall d :: 0 <= d < 3 ==> !Diagonal(TiltedCorners(), d, ReferenceDiffers)
  {
    var a := ComparableTuple([0, 200, 200]);
    assert a in TiltedCorners();
  }

  /** On axis 0 the corners project to two subgroups of two. */
  lemma TiltedCornersSubgroups()
    ensures ThreeDimensional(TiltedCorners())
    ensures Diagonal(TiltedCorners(), 0, ValueDiffers)
    ensures SubgroupCounts(TiltedCorners(), 0) == map[ComparableTuple([200, 200]) := 2, ComparableTuple([300, 300]) := 2]
  {
    var low, high := ComparableTuple([200, 200]), ComparableTuple([300, 300]);
    var keys := TiltedCorners();
    TiltedProjections();
    TiltedSubgroup(200);
    TiltedSubgroup(300);
    assert low != high;
    assert SubgroupCounts(keys, 0).Keys == {low, high};
  }

  lemma TiltedProjections()
    ensures ThreeDimensional(TiltedCorners())
    ensures Diagonal(TiltedCorners(), 0, ValueDiffers)
    ensures Subgroups(TiltedCorners(), 0) == {ComparableTuple([200, 200]), ComparableTuple([300, 300])}
  {
    var a, b, c, e := ComparableTuple([0, 200, 200]), ComparableTuple([1, 200, 200]),
                      ComparableTuple([0, 300, 300]), ComparableTuple([1, 300, 300]);
    assert Projection(a, 0) == ComparableTuple([200, 200]) && Projection(b, 0) == ComparableTuple([200, 200]);
    assert Projection(c, 0) == ComparableTuple([300, 300]) && Projection(e, 0) == ComparableTuple([300, 300]);
  }

  /** The two corners with in-plane coordinates (v, v). */
  lemma TiltedSubgroup(v: int)
    requires v == 200 || v == 300
    ensures ThreeDimensional(TiltedCorners())
    ensures |Subgroup(TiltedCorners(), 0, ComparableTuple([v, v]))| == 2
  {
    var a, b := ComparableTuple([0, v, v]), ComparableTuple([1, v, v]);
    assert Projection(a, 0) == ComparableTuple([v, v]) && Projection(b, 0) == ComparableTuple([v, v]);
    assert Subgroup(TiltedCorners(), 0, ComparableTuple([v, v])) == {a, b};
    assert a.values[0] != b.values[0];
  }

  /** The intended decision accepts the tilted corners; the decision as
      written rejects them. */
  lemma BoxedComparisonRejectsTiltedPlane()
    ensures UniformLength(TiltedCorners())
    ensures Coplanarity(TiltedCorners()) == Ok(true)
    ensures CoplanarityAsWritten(TiltedCorners()) == Ok(false)
  {
    var keys := TiltedCorners();
    TiltedCornersShape();
    TiltedPlaneAccepts();
    TiltedPlaneRejectsAsWritten();
    assert !exists d :: 0 <= d < 3 && |AxisValues(keys, d)| <= 1;
  }

  /** With value comparison the tilted-plane test accepts the corners on axis 0. */
  lemma TiltedPlaneAccepts()
    ensures ThreeDimensional(TiltedCorners())
    ensures TiltedPlane(TiltedCorners(), 0, ValueDiffers) == Ok(true)
  {
    var keys := TiltedCorners();
    var low, high := ComparableTuple([200, 200]), ComparableTuple([300, 300]);
    TiltedCornersSubgroups();
    var m := SubgroupCounts(keys, 0);
    assert low != high;
    assert m.Keys == {low, high};
    assert |m| == 2;
    assert forall g :: g in m ==> m[g] == 2;
  }

  /** With the boxed comparison no axis passes the diagonal test. */
  lemma TiltedPlaneRejectsAsWritten()
    ensures ThreeDimensional(TiltedCorners())
    ensures TiltedPlane(TiltedCorners(), 0, ReferenceDiffers) == Ok(false)
  {
    var keys := TiltedCorners();
    TiltedCornersOffDiagonal();
    assert TiltedPlane(keys, 2, ReferenceDiffers) == TiltedPlane(keys, 3, ReferenceDiffers);
    assert TiltedPlane(keys, 1, ReferenceDiffers) == TiltedPlane(keys, 2, ReferenceDiffers);
    assert TiltedPlane(keys, 0, ReferenceDiffers) == TiltedPlane(keys, 1, ReferenceDiffers);
  }
}
