/** The box and tile model shared by the stitching code: integer boxes with
    inclusive bounds (as imglib2 intervals), tiles with a position and an
    optional size, and pairs of tiles.  The box intersection stands for
    `IntervalsNullable.intersect` and `TileOperations.getOverlappingRegionGlobal`,
    which are not part of this model; it is defined here the standard way
    (per-axis largest minimum and smallest maximum, absent when some axis is empty). */
module Geometry {
  import opened Base

  datatype Box = Box(min: seq<int>, max: seq<int>)

  predicate WellFormedBox(b: Box) {
    |b.min| == |b.max|
  }

  /** `Interval.dimension(d)`: the number of integer positions covered on axis `d`. */
  function Dimension(b: Box, d: nat): int
    requires WellFormedBox(b) && d < |b.min|
  {
    b.max[d] - b.min[d] + 1
  }

  function Max(x: int, y: int): int { if x < y then y else x }
  function Min(x: int, y: int): int { if x < y then x else y }

  predicate Contains(b: Box, p: seq<int>)
    requires WellFormedBox(b)
  {
    |p| == |b.min| && forall d :: 0 <= d < |p| ==> b.min[d] <= p[d] <= b.max[d]
  }

  /** Per axis, the larger of the two minimums. */
  function LowerCorner(a: Box, b: Box): (lo: seq<int>)
    requires WellFormedBox(a) && WellFormedBox(b) && |a.min| == |b.min|
    ensures |lo| == |a.min| && forall d :: 0 <= d < |lo| ==> lo[d] == Max(a.min[d], b.min[d])
  {
    seq(|a.min|, d requires 0 <= d < |a.min| => Max(a.min[d], b.min[d]))
  }

  /** Per axis, the smaller of the two maximums. */
  function UpperCorner(a: Box, b: Box): (hi: seq<int>)
    requires WellFormedBox(a) && WellFormedBox(b) && |a.min| == |b.min|
    ensures |hi| == |a.min| && forall d :: 0 <= d < |hi| ==> hi[d] == Min(a.max[d], b.max[d])
  {
    seq(|a.min|, d requires 0 <= d < |a.min| => Min(a.max[d], b.max[d]))
  }

  /** The common part of two boxes of equal dimensionality, or `None` (Java's
      `null`) when they share no position. */
  function Intersect(a: Box, b: Box): (r: Option<Box>)
    requires WellFormedBox(a) && WellFormedBox(b) && |a.min| == |b.min|
    ensures r.Some? ==> WellFormedBox(r.value) && |r.value.min| == |a.min|
    ensures r.Some? ==> forall d :: 0 <= d < |a.min| ==> Dimension(r.value, d) >= 1
  {
    var lo, hi := LowerCorner(a, b), UpperCorner(a, b);
    if forall d :: 0 <= d < |lo| ==> lo[d] <= hi[d] then Some(Box(lo, hi)) else None
  }

  /** A position lies in the intersection exactly when it lies in both boxes;
      in particular `None` means the boxes share no position. */
  lemma IntersectContains(a: Box, b: Box, p: seq<int>)
    requires WellFormedBox(a) && WellFormedBox(b) && |a.min| == |b.min|
    ensures (Intersect(a, b).Some? && Contains(Intersect(a, b).value, p))
            <==> (Contains(a, p) && Contains(b, p))
  {
    if Contains(a, p) && Contains(b, p) {
      assert forall d :: 0 <= d < |p| ==> Max(a.min[d], b.min[d]) <= p[d] <= Min(a.max[d], b.max[d]);
    }
  }

  /** Overlap is symmetric. */
  lemma IntersectSymmetric(a: Box, b: Box)
    requires WellFormedBox(a) && WellFormedBox(b) && |a.min| == |b.min|
    ensures Intersect(a, b) == Intersect(b, a)
  {
    assert LowerCorner(a, b) == LowerCorner(b, a);
    assert UpperCorner(a, b) == UpperCorner(b, a);
  }

  /** A tile as described by `TileInfo`: its index within its channel, the
      image it is read from, its position, its size (Java's `null` until the
      metadata step has read the image) and its pixel resolution.  Positions
      are integers here: the pipeline works on tiles translated to the origin. */
  datatype TileInfo = TileInfo(
    index: int,
    filePath: string,
    position: seq<int>,
    size: Option<seq<int>>,
    pixelResolution: seq<real>)

  /** The tile has an `n`-dimensional position and a known, non-negative size. */
  predicate HasGeometry(t: TileInfo, n: nat) {
    && |t.position| == n
    && t.size.Some? && |t.size.value| == n
    && forall d :: 0 <= d < n ==> t.size.value[d] >= 0
  }

  /** `TileInfo.getBoundaries()`: from the position over `size` positions on each axis. */
  function Boundaries(t: TileInfo): (b: Box)
    requires HasGeometry(t, |t.position|)
    ensures WellFormedBox(b) && |b.min| == |t.position|
    ensures forall d :: 0 <= d < |t.position| ==> Dimension(b, d) == t.size.value[d]
  {
    Box(t.position, seq(|t.position|, d requires 0 <= d < |t.position| => t.position[d] + t.size.value[d] - 1))
  }

  datatype TilePair = TilePair(first: TileInfo, second: TileInfo)

  /** Both tiles of the pair have `n`-dimensional geometry. */
  predicate PairHasGeometry(p: TilePair, n: nat) {
    HasGeometry(p.first, n) && HasGeometry(p.second, n)
  }

  /** `TileOperations.getOverlappingRegionGlobal`: the overlap of the two tiles' boxes. */
  function OverlapOf(p: TilePair): Option<Box>
    requires PairHasGeometry(p, |p.first.position|)
  {
    Intersect(Boundaries(p.first), Boundaries(p.second))
  }

  /** The pair's tiles in the other order (`TilePair.swap`). */
  function Swapped(p: TilePair): TilePair {
    TilePair(p.second, p.first)
  }

  /** The identity of a pair for hashing and equality: the two tile indexes,
      smaller first, so that (A, B) and (B, A) are the same pair. */
  function PairKey(p: TilePair): (int, int) {
    if p.first.index <= p.second.index then (p.first.index, p.second.index)
    else (p.second.index, p.first.index)
  }
}
