/** `WarpedSplitTileOperations`: enumerate the pairs of tile boxes (pieces of
    split tiles) that overlap once the moving box is brought into the fixed
    box's space.  The real-valued warping (`transformMovingTileBox`), the
    minimum tile dimensions of a pair and `FilterAdjacentShifts.isAdjacent`
    are not part of this model: they are parameters. */
module SplitTiles {
  import opened Base
  import opened Geometry

  /** A tile box: the piece's own geometry and the index of the original
      tile it was split from. */
  datatype TileBox = TileBox(tile: TileInfo, originalIndex: int)

  /** A pair of tile boxes: `a` is the fixed box, `b` the moving one. */
  datatype TileBoxPair = TileBoxPair(a: TileBox, b: TileBox)

  /** The helpers the operations call but that are not modelled. */
  datatype Helpers = Helpers(
    transformMovingTileBox: TileBoxPair -> Box,
    minTileDimensions: TileBoxPair -> seq<int>,
    isAdjacent: (seq<int>, Box) -> bool)

  /** The moving box, transformed, has the fixed box's dimensionality. */
  ghost predicate ValidHelpers(h: Helpers) {
    forall p: TileBoxPair :: WellFormedBox(h.transformMovingTileBox(p)) && |h.transformMovingTileBox(p).min| == |p.a.tile.position|
  }

  predicate BoxHasGeometry(b: TileBox) {
    HasGeometry(b.tile, |b.tile.position|)
  }

  /** The overlap of the fixed box with the moving box in the fixed box's space. */
  function TransformedOverlap(p: TileBoxPair, h: Helpers): Option<Box>
    requires ValidHelpers(h) && BoxHasGeometry(p.a)
  {
    Intersect(Boundaries(p.a.tile), h.transformMovingTileBox(p))
  }

  /** `isOverlappingTileBoxPair`: boxes of different original tiles whose
      overlap is not empty and, when `adjacent` is set, is adjacent. */
  predicate IsOverlappingTileBoxPair(p: TileBoxPair, adjacent: bool, h: Helpers)
    requires ValidHelpers(h) && BoxHasGeometry(p.a)
  {
    if p.a.originalIndex != p.b.originalIndex then
      var overlap := TransformedOverlap(p, h);
      overlap.Some? && (!adjacent || h.isAdjacent(h.minTileDimensions(p), overlap.value))
    else false
  }

  /** With `adjacent` set the test is the unrestricted one plus adjacency;
      boxes of the same original tile never pass it. */
  lemma IsOverlappingTileBoxPairIff(p: TileBoxPair, adjacent: bool, h: Helpers)
    requires ValidHelpers(h) && BoxHasGeometry(p.a)
    ensures IsOverlappingTileBoxPair(p, adjacent, h) <==>
      && p.a.originalIndex != p.b.originalIndex
      && TransformedOverlap(p, h).Some?
      && (adjacent ==> h.isAdjacent(h.minTileDimensions(p), TransformedOverlap(p, h).value))
  {
  }

  // ----- The index pairs the double loop visits -----

  type IndexPair = (nat, nat)

  /** The pairs (i, i + 1), ..., (i, j - 1) the inner loop visits before `j`. */
  function RowUpTo(i: nat, j: nat): (r: seq<IndexPair>)
    ensures |r| == if j <= i + 1 then 0 else j - i - 1
    decreases j
  {
    if j <= i + 1 then [] else RowUpTo(i, j - 1) + [(i, j - 1)]
  }

  /** The pairs the outer loop visits before reaching `i`, for `n` boxes. */
  function RowsBefore(i: nat, n: nat): seq<IndexPair>
    decreases i
  {
    if i == 0 then [] else RowsBefore(i - 1, n) + RowUpTo(i - 1, n)
  }

  function Candidates(n: nat): seq<IndexPair> {
    RowsBefore(n, n)
  }

  /** The strict order in which the loops visit the pairs. */
  predicate LexLess(x: IndexPair, y: IndexPair) {
    x.0 < y.0 || (x.0 == y.0 && x.1 < y.1)
  }

  lemma {:induction false} RowUpToContents(i: nat, j: nat)
    ensures forall k :: 0 <= k < |RowUpTo(i, j)| ==> RowUpTo(i, j)[k] == (i, i + 1 + k)
    decreases j
  {
    if j > i + 1 {
      RowUpToContents(i, j - 1);
    }
  }

  /** Before row `i` the loops have visited exactly the pairs i' < j' < n
      with i' < i. */
  lemma {:induction false} RowsBeforeMembers(i: nat, n: nat)
    requires i <= n
    ensures forall c: IndexPair :: c in RowsBefore(i, n) <==> c.0 < i && c.0 < c.1 < n
    decreases i
  {
    if i > 0 {
      var prev, row := RowsBefore(i - 1, n), RowUpTo(i - 1, n);
      RowsBeforeMembers(i - 1, n);
      RowUpToContents(i - 1, n);
      forall c: IndexPair
        ensures c in prev + row <==> c.0 < i && c.0 < c.1 < n
      {
        if c.0 == i - 1 && c.0 < c.1 < n {
          assert row[c.1 - i] == c;
        }
        if c in row {
          var k :| 0 <= k < |row| && row[k] == c;
        }
      }
    }
  }

  /** ... and in strictly increasing lexicographic order. */
  lemma {:induction false} RowsBeforeOrdered(i: nat, n: nat)
    requires i <= n
    ensures forall k, l :: 0 <= k < l < |RowsBefore(i, n)| ==> LexLess(RowsBefore(i, n)[k], RowsBefore(i, n)[l])
    ensures forall k :: 0 <= k < |RowsBefore(i, n)| ==> RowsBefore(i, n)[k].0 < i
    decreases i
  {
    if i > 0 {
      var prev, row := RowsBefore(i - 1, n), RowUpTo(i - 1, n);
      RowsBeforeOrdered(i - 1, n);
      RowUpToContents(i - 1, n);
      var all := prev + row;
      forall k, l | 0 <= k < l < |all|
        ensures LexLess(all[k], all[l])
      {
        if l < |prev| {
          assert all[k] == prev[k] && all[l] == prev[l];
        } else if k < |prev| {
          assert all[k] == prev[k] && all[l] == row[l - |prev|];
        } else {
          assert all[k] == row[k - |prev|] && all[l] == row[l - |prev|];
        }
      }
      forall k | 0 <= k < |all|
        ensures all[k].0 < i
      {
        if k >= |prev| {
          assert all[k] == row[k - |prev|];
        }
      }
    }
  }

  /** `n` boxes give n(n - 1) / 2 candidate pairs. */
  lemma {:induction false} RowsBeforeLength(i: nat, n: nat)
    requires i <= n
    ensures 2 * |RowsBefore(i, n)| == i * (2 * n - i - 1)
    decreases i
  {
    if i > 0 {
      RowsBeforeLength(i - 1, n);
    }
  }

  lemma CandidatesAreAllPairs(n: nat)
    ensures forall c :: c in Candidates(n) <==> c.0 < c.1 < n
    ensures forall k, l :: 0 <= k < l < |Candidates(n)| ==> LexLess(Candidates(n)[k], Candidates(n)[l])
    ensures 2 * |Candidates(n)| == n * (n - 1)
  {
    RowsBeforeMembers(n, n);
    RowsBeforeOrdered(n, n);
    RowsBeforeLength(n, n);
  }

  // ----- The enumeration -----

  predicate InRange(cs: seq<IndexPair>, n: nat) {
    forall k :: 0 <= k < |cs| ==> cs[k].0 < n && cs[k].1 < n
  }

  function PairAt(boxes: seq<TileBox>, c: IndexPair): TileBoxPair
    requires c.0 < |boxes| && c.1 < |boxes|
  {
    TileBoxPair(boxes[c.0], boxes[c.1])
  }

  predicate AllHaveGeometry(boxes: seq<TileBox>) {
    forall i :: 0 <= i < |boxes| ==> BoxHasGeometry(boxes[i])
  }

  /** The boxes at index pair `c` pass the test. */
  predicate Passes(boxes: seq<TileBox>, c: IndexPair, adjacent: bool, h: Helpers)
    requires ValidHelpers(h) && AllHaveGeometry(boxes)
  {
    c.0 < |boxes| && c.1 < |boxes| && IsOverlappingTileBoxPair(PairAt(boxes, c), adjacent, h)
  }

  /** The pairs of boxes at the index pairs of `cs` that pass the test, in
      the order of `cs`. */
  function Enumerate(boxes: seq<TileBox>, cs: seq<IndexPair>, adjacent: bool, h: Helpers): seq<TileBoxPair>
    requires ValidHelpers(h) && AllHaveGeometry(boxes)
    decreases |cs|
  {
    if |cs| == 0 then []
    else
      var c := cs[|cs| - 1];
      Enumerate(boxes, cs[..|cs| - 1], adjacent, h) + (if Passes(boxes, c, adjacent, h) then [PairAt(boxes, c)] else [])
  }

  /** The spine of the two loops: one more visited pair extends the result
      by that pair when it passes the test. */
  lemma EnumerateSnoc(boxes: seq<TileBox>, cs: seq<IndexPair>, c: IndexPair, adjacent: bool, h: Helpers)
    requires ValidHelpers(h) && AllHaveGeometry(boxes)
    ensures Enumerate(boxes, cs + [c], adjacent, h) ==
      Enumerate(boxes, cs, adjacent, h) + (if Passes(boxes, c, adjacent, h) then [PairAt(boxes, c)] else [])
  {
    assert (cs + [c])[..|cs|] == cs;
  }

  /** The inner loop of `findOverlappingTileBoxes`: pair box `i` with every
      later box, appending the pairs that pass the test. */
  method ScanRow(tileBoxes: seq<TileBox>, i: nat, adjacent: bool, h: Helpers, overlappingBoxes: seq<TileBoxPair>)
    returns (overlappingBoxes': seq<TileBoxPair>)
    requires ValidHelpers(h) && AllHaveGeometry(tileBoxes) && i < |tileBoxes|
    requires overlappingBoxes == Enumerate(tileBoxes, RowsBefore(i, |tileBoxes|), adjacent, h)
    ensures overlappingBoxes' == Enumerate(tileBoxes, RowsBefore(i + 1, |tileBoxes|), adjacent, h)
  {
    var n := |tileBoxes|;
    overlappingBoxes' := overlappingBoxes;
    ghost var before := RowsBefore(i, n);
    assert before + RowUpTo(i, i + 1) == before;
    for j: nat := i + 1 to n
      invariant overlappingBoxes' == Enumerate(tileBoxes, before + RowUpTo(i, j), adjacent, h)
    {
      overlappingBoxes' := VisitPair(tileBoxes, i, j, adjacent, h, before, overlappingBoxes');
    }
  }

  /** The body of the inner loop: test the boxes `i` and `j` and append their
      pair when it passes. */
  method VisitPair(tileBoxes: seq<TileBox>, i: nat, j: nat, adjacent: bool, h: Helpers,
                   ghost before: seq<IndexPair>, overlappingBoxes: seq<TileBoxPair>)
    returns (overlappingBoxes': seq<TileBoxPair>)
    requires ValidHelpers(h) && AllHaveGeometry(tileBoxes) && i < j < |tileBoxes|
    requires overlappingBoxes == Enumerate(tileBoxes, before + RowUpTo(i, j), adjacent, h)
    ensures overlappingBoxes' == Enumerate(tileBoxes, before + RowUpTo(i, j + 1), adjacent, h)
  {
    var tileBoxPair := TileBoxPair(tileBoxes[i], tileBoxes[j]);
    RowUpToSnoc(before, i, j);
    EnumerateSnoc(tileBoxes, before + RowUpTo(i, j), (i, j), adjacent, h);
    overlappingBoxes' := overlappingBoxes;
    if IsOverlappingTileBoxPair(tileBoxPair, adjacent, h) {
      overlappingBoxes' := overlappingBoxes' + [tileBoxPair];
    }
  }

  /** The inner loop's next pair extends the visited ones by one. */
  lemma RowUpToSnoc(before: seq<IndexPair>, i: nat, j: nat)
    requires i < j
    ensures before + RowUpTo(i, j + 1) == before + RowUpTo(i, j) + [(i, j)]
  {
  }

  /** `findOverlappingTileBoxes`: the i < j double loop; the result lists the
      passing pairs in the order the loops visit them. */
  method FindOverlappingTileBoxes(tileBoxes: seq<TileBox>, adjacent: bool, h: Helpers) returns (overlappingBoxes: seq<TileBoxPair>)
    requires ValidHelpers(h) && AllHaveGeometry(tileBoxes)
    ensures overlappingBoxes == Enumerate(tileBoxes, Candidates(|tileBoxes|), adjacent, h)
  {
    var n := |tileBoxes|;
    overlappingBoxes := [];
    for i := 0 to n
      invariant overlappingBoxes == Enumerate(tileBoxes, RowsBefore(i, n), adjacent, h)
    {
      overlappingBoxes := ScanRow(tileBoxes, i, adjacent, h, overlappingBoxes);
    }
  }

  // ----- What the enumeration promises -----

  /** `Enumerate` keeps the order of `cs` and lists only passing pairs. */
  lemma {:induction false} EnumerateMembers(boxes: seq<TileBox>, cs: seq<IndexPair>, adjacent: bool, h: Helpers)
    requires ValidHelpers(h) && AllHaveGeometry(boxes)
    ensures |Enumerate(boxes, cs, adjacent, h)| <= |cs|
    ensures forall p :: p in Enumerate(boxes, cs, adjacent, h) <==>
      exists c :: c in cs && Passes(boxes, c, adjacent, h) && p == PairAt(boxes, c)
    decreases |cs|
  {
    if |cs| != 0 {
      var init, c := cs[..|cs| - 1], cs[|cs| - 1];
      EnumerateMembers(boxes, init, adjacent, h);
      assert cs == init + [c];
      forall p | p in Enumerate(boxes, cs, adjacent, h)
        ensures exists c' :: c' in cs && Passes(boxes, c', adjacent, h) && p == PairAt(boxes, c')
      {
        if p !in Enumerate(boxes, init, adjacent, h) {
          assert c in cs;
        }
      }
      forall p | exists c' :: c' in cs && Passes(boxes, c', adjacent, h) && p == PairAt(boxes, c')
        ensures p in Enumerate(boxes, cs, adjacent, h)
      {
        var c' :| c' in cs && Passes(boxes, c', adjacent, h) && p == PairAt(boxes, c');
        if c' != c {
          assert c' in init;
        }
      }
    }
  }

  /** The index pairs whose boxes pass, in the order of `cs`. */
  function KeptIndexPairs(boxes: seq<TileBox>, cs: seq<IndexPair>, adjacent: bool, h: Helpers): seq<IndexPair>
    requires ValidHelpers(h) && AllHaveGeometry(boxes)
    decreases |cs|
  {
    if |cs| == 0 then []
    else
      var c := cs[|cs| - 1];
      KeptIndexPairs(boxes, cs[..|cs| - 1], adjacent, h) + (if Passes(boxes, c, adjacent, h) then [c] else [])
  }

  /** The enumeration is the boxes at the kept index pairs, and those stay
      in strictly increasing order when `cs` is. */
  lemma {:induction false} EnumerateAtKeptIndexPairs(boxes: seq<TileBox>, cs: seq<IndexPair>, adjacent: bool, h: Helpers)
    requires ValidHelpers(h) && AllHaveGeometry(boxes)
    requires forall k, l :: 0 <= k < l < |cs| ==> LexLess(cs[k], cs[l])
    ensures var e, kept := Enumerate(boxes, cs, adjacent, h), KeptIndexPairs(boxes, cs, adjacent, h);
      && |e| == |kept|
      && (forall k :: 0 <= k < |kept| ==> kept[k] in cs && Passes(boxes, kept[k], adjacent, h) && e[k] == PairAt(boxes, kept[k]))
      && (forall k, l :: 0 <= k < l < |kept| ==> LexLess(kept[k], kept[l]))
    decreases |cs|
  {
    if |cs| != 0 {
      var init, c := cs[..|cs| - 1], cs[|cs| - 1];
      EnumerateAtKeptIndexPairs(boxes, init, adjacent, h);
      var kept0 := KeptIndexPairs(boxes, init, adjacent, h);
      if Passes(boxes, c, adjacent, h) {
        var kept := kept0 + [c];
        forall k | 0 <= k < |kept0|
          ensures LexLess(kept0[k], c)
        {
          var m :| 0 <= m < |init| && init[m] == kept0[k];
          assert cs[m] == init[m];
        }
        forall k, l | 0 <= k < l < |kept|
          ensures LexLess(kept[k], kept[l])
        {
          if l < |kept0| {
            assert kept[k] == kept0[k] && kept[l] == kept0[l];
          } else {
            assert kept[k] == kept0[k];
          }
        }
      }
    }
  }

  /** The pairs that pass the adjacency test on their overlap. */
  function AdjacentOnly(pairs: seq<TileBoxPair>, h: Helpers): (r: seq<TileBoxPair>)
    requires ValidHelpers(h)
    ensures |r| <= |pairs| && multiset(r) <= multiset(pairs)
    decreases |pairs|
  {
    if |pairs| == 0 then []
    else
      var p := pairs[|pairs| - 1];
      var keep := BoxHasGeometry(p.a) && TransformedOverlap(p, h).Some?
                  && h.isAdjacent(h.minTileDimensions(p), TransformedOverlap(p, h).value);
      assert pairs == pairs[..|pairs| - 1] + [p];
      AdjacentOnly(pairs[..|pairs| - 1], h) + (if keep then [p] else [])
  }

  lemma AdjacentOnlySnoc(pairs: seq<TileBoxPair>, p: TileBoxPair, h: Helpers)
    requires ValidHelpers(h) && BoxHasGeometry(p.a)
    ensures AdjacentOnly(pairs + [p], h) == AdjacentOnly(pairs, h) +
      (if TransformedOverlap(p, h).Some? && h.isAdjacent(h.minTileDimensions(p), TransformedOverlap(p, h).value) then [p] else [])
  {
    assert (pairs + [p])[..|pairs|] == pairs;
  }

  /** With `adjacent` set the result is the unrestricted result with the
      non-adjacent pairs removed: a subsequence of it. */
  lemma {:induction false} AdjacentIsSubsequence(boxes: seq<TileBox>, cs: seq<IndexPair>, h: Helpers)
    requires ValidHelpers(h) && AllHaveGeometry(boxes)
    ensures Enumerate(boxes, cs, true, h) == AdjacentOnly(Enumerate(boxes, cs, false, h), h)
    decreases |cs|
  {
    if |cs| != 0 {
      var init, c := cs[..|cs| - 1], cs[|cs| - 1];
      AdjacentIsSubsequence(boxes, init, h);
      var e := Enumerate(boxes, init, false, h);
      assert Enumerate(boxes, cs, true, h) == Enumerate(boxes, init, true, h) + (if Passes(boxes, c, true, h) then [PairAt(boxes, c)] else []);
      assert Enumerate(boxes, cs, false, h) == e + (if Passes(boxes, c, false, h) then [PairAt(boxes, c)] else []);
      if Passes(boxes, c, false, h) {
        AdjacentOnlySnoc(e, PairAt(boxes, c), h);
      } else {
        assert e + [] == e;
      }
    }
  }

  /** `findOverlappingTileBoxes` lists the pairs (box i, box j) with i < j,
      once each and in lexicographic order of (i, j). */
  lemma FoundPairsInOrder(boxes: seq<TileBox>, adjacent: bool, h: Helpers)
    requires ValidHelpers(h) && AllHaveGeometry(boxes)
    ensures var e, kept := Enumerate(boxes, Candidates(|boxes|), adjacent, h), KeptIndexPairs(boxes, Candidates(|boxes|), adjacent, h);
      && |e| == |kept|
      && (forall k :: 0 <= k < |kept| ==> kept[k].0 < kept[k].1 < |boxes| && e[k] == TileBoxPair(boxes[kept[k].0], boxes[kept[k].1]))
      && (forall k, l :: 0 <= k < l < |kept| ==> LexLess(kept[k], kept[l]))
  {
    CandidatesAreAllPairs(|boxes|);
    EnumerateAtKeptIndexPairs(boxes, Candidates(|boxes|), adjacent, h);
  }

  /** Every pair (box i, box j) with i < j that passes the test is listed. */
  lemma FoundPairsComplete(boxes: seq<TileBox>, adjacent: bool, h: Helpers)
    requires ValidHelpers(h) && AllHaveGeometry(boxes)
    ensures forall i, j :: 0 <= i < j < |boxes| && IsOverlappingTileBoxPair(TileBoxPair(boxes[i], boxes[j]), adjacent, h) ==>
      TileBoxPair(boxes[i], boxes[j]) in Enumerate(boxes, Candidates(|boxes|), adjacent, h)
  {
    var n := |boxes|;
    CandidatesAreAllPairs(n);
    EnumerateMembers(boxes, Candidates(n), adjacent, h);
    forall i, j | 0 <= i < j < n && IsOverlappingTileBoxPair(TileBoxPair(boxes[i], boxes[j]), adjacent, h)
      ensures TileBoxPair(boxes[i], boxes[j]) in Enumerate(boxes, Candidates(n), adjacent, h)
    {
      assert (i, j) in Candidates(n) && Passes(boxes, (i, j), adjacent, h);
    }
  }

  /** Every listed pair is two boxes i < j of different original tiles that
      pass the test. */
  lemma FoundPairsSound(boxes: seq<TileBox>, adjacent: bool, h: Helpers)
    requires ValidHelpers(h) && AllHaveGeometry(boxes)
    ensures forall p :: p in Enumerate(boxes, Candidates(|boxes|), adjacent, h) ==>
      && (exists i, j :: 0 <= i < j < |boxes| && p == TileBoxPair(boxes[i], boxes[j]))
      && p.a.originalIndex != p.b.originalIndex && BoxHasGeometry(p.a) && IsOverlappingTileBoxPair(p, adjacent, h)
  {
    var n := |boxes|;
    CandidatesAreAllPairs(n);
    EnumerateMembers(boxes, Candidates(n), adjacent, h);
    forall p | p in Enumerate(boxes, Candidates(n), adjacent, h)
      ensures && (exists i, j :: 0 <= i < j < n && p == TileBoxPair(boxes[i], boxes[j]))
              && p.a.originalIndex != p.b.originalIndex && BoxHasGeometry(p.a) && IsOverlappingTileBoxPair(p, adjacent, h)
    {
      var c :| c in Candidates(n) && Passes(boxes, c, adjacent, h) && p == PairAt(boxes, c);
      assert 0 <= c.0 < c.1 < n && p == TileBoxPair(boxes[c.0], boxes[c.1]);
      assert BoxHasGeometry(p.a) && IsOverlappingTileBoxPair(p, adjacent, h);
    }
  }

  /** At most n(n - 1) / 2 pairs are listed. */
  lemma FoundPairsCount(boxes: seq<TileBox>, adjacent: bool, h: Helpers)
    requires ValidHelpers(h) && AllHaveGeometry(boxes)
    ensures 2 * |Enumerate(boxes, Candidates(|boxes|), adjacent, h)| <= |boxes| * (|boxes| - 1)
  {
    CandidatesAreAllPairs(|boxes|);
    EnumerateMembers(boxes, Candidates(|boxes|), adjacent, h);
  }
}
