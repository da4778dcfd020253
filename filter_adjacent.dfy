/** `FilterAdjacentShiftsMulti`: keep the tile pairs whose overlap is short
    along exactly one of the first three axes (the face-adjacent pairs of a
    grid), optionally only those adjacent along a given axis; and the command
    that applies the same test to stored pairwise shifts, marking the others
    invalid and orienting the kept ones. */
module FilterAdjacent {
  import opened Base
  import opened Geometry

  /** A pair whose tiles have sizes and overlap: the overlap the source
      dereferences is not `null`. */
  predicate Overlapping(p: TilePair) {
    && PairHasGeometry(p, |p.first.position|)
    && OverlapOf(p).Some?
  }

  /** A pair whose tiles have at least three axes and that overlap; the
      filter dereferences the overlap and reads its first three axes. */
  predicate Overlapping3D(p: TilePair) {
    |p.first.position| >= 3 && Overlapping(p)
  }

  /** Per axis: the overlap is shorter than half of the smaller tile size. */
  function ShortEdges(p: TilePair): (s: seq<bool>)
    requires Overlapping(p)
    ensures |s| == |p.first.position|
  {
    var overlap := OverlapOf(p).value;
    seq(|p.first.position|, d requires 0 <= d < |p.first.position| =>
      Dimension(overlap, d) < Min(p.first.size.value[d], p.second.size.value[d]) / 2)
  }

  /** Among the first three axes, `a` and only `a` is short. */
  predicate OnlyShortAxis(s: seq<bool>, a: nat)
    requires |s| >= 3
  {
    a < 3 && s[a] && forall b :: 0 <= b < 3 && b != a ==> !s[b]
  }

  /** The condition of the filter, negated: the source skips a pair when all
      three per-axis clauses hold.  `dim` is the optional `Integer` axis. */
  predicate KeepCondition(s: seq<bool>, dim: Option<int>)
    requires |s| >= 3
  {
    !(  ((!s[0] || s[1] || s[2]) || (dim.Some? && dim.value != 0))
     && ((s[0] || !s[1] || s[2]) || (dim.Some? && dim.value != 1))
     && ((s[0] || s[1] || !s[2]) || (dim.Some? && dim.value != 2)))
  }

  /** A pair is kept exactly when a single one of the first three axes is
      short and that axis is the requested one, if any. */
  lemma KeepConditionIff(s: seq<bool>, dim: Option<int>)
    requires |s| >= 3
    ensures KeepCondition(s, dim) <==> exists a :: 0 <= a < 3 && OnlyShortAxis(s, a) && (dim.None? || dim.value == a)
  {
    if KeepCondition(s, dim) {
      if s[0] && !s[1] && !s[2] && (dim.None? || dim.value == 0) {
        assert OnlyShortAxis(s, 0);
      } else if !s[0] && s[1] && !s[2] && (dim.None? || dim.value == 1) {
        assert OnlyShortAxis(s, 1);
      } else {
        assert OnlyShortAxis(s, 2);
      }
    }
  }

  /** A value of the source's condition that may not exist: `None` when
      evaluating it throws.  `CondOr` and `CondAnd` are Java's `||` and
      `&&`: the right operand counts only when the left one does not decide
      the result, so an exception in it is then never raised. */
  function CondNot(a: Option<bool>): Option<bool> {
    if a.None? then None else Some(!a.value)
  }

  function CondOr(a: Option<bool>, b: Option<bool>): Option<bool> {
    if a.None? then None else if a.value then a else b
  }

  function CondAnd(a: Option<bool>, b: Option<bool>): Option<bool> {
    if a.None? then None else if !a.value then a else b
  }

  /** `shortEdges[i]`, which throws past the end of the array. */
  function EdgeAt(s: seq<bool>, i: nat): Option<bool> {
    if i < |s| then Some(s[i]) else None
  }

  /** The skip condition as the source evaluates it, left to right with
      short circuits, on short edges of any length: `Some(true)` skips the
      pair, `Some(false)` keeps it, and `None` reads past the end of
      `shortEdges`. */
  function SkipCondition(s: seq<bool>, dim: Option<int>): Option<bool> {
    var e0, e1, e2 := EdgeAt(s, 0), EdgeAt(s, 1), EdgeAt(s, 2);
    var x := CondOr(CondOr(CondOr(CondNot(e0), e1), e2), Some(dim.Some? && dim.value != 0));
    var y := CondOr(CondOr(CondOr(e0, CondNot(e1)), e2), Some(dim.Some? && dim.value != 1));
    var z := CondOr(CondOr(CondOr(e0, e1), CondNot(e2)), Some(dim.Some? && dim.value != 2));
    CondAnd(CondAnd(CondAnd(x, y), z), Some(true))
  }

  /** With three or more axes the condition skips exactly the pairs that are
      not kept.  With fewer, it is decided without a third axis only for two
      axes that are both short, and then skips the pair; in every other case
      it reads past the end. */
  lemma SkipConditionReads(s: seq<bool>, dim: Option<int>)
    ensures SkipCondition(s, dim) ==
      if |s| >= 3 then Some(!KeepCondition(s, dim))
      else if |s| == 2 && s[0] && s[1] then Some(true)
      else None
  {
  }

  /** The short axis of a kept pair is unique. */
  lemma OnlyShortAxisUnique(s: seq<bool>, a: nat, b: nat)
    requires |s| >= 3 && OnlyShortAxis(s, a) && OnlyShortAxis(s, b)
    ensures a == b
  {
  }

  predicate Kept(p: TilePair, dim: Option<int>)
    requires Overlapping3D(p)
  {
    KeepCondition(ShortEdges(p), dim)
  }

  /** The pair in the other order overlaps alike and has the same short
      edges, so the filter does not depend on the order of the two tiles. */
  lemma ShortEdgesSwapped(p: TilePair)
    requires Overlapping3D(p)
    ensures Overlapping3D(Swapped(p))
    ensures ShortEdges(Swapped(p)) == ShortEdges(p)
    ensures forall dim :: Kept(Swapped(p), dim) == Kept(p, dim)
  {
    IntersectSymmetric(Boundaries(p.first), Boundaries(p.second));
    var s, s' := ShortEdges(p), ShortEdges(Swapped(p));
    assert forall d :: 0 <= d < |s| ==> s[d] == s'[d];
  }

  predicate AllOverlapping3D(pairs: seq<TilePair>) {
    forall i :: 0 <= i < |pairs| ==> Overlapping3D(pairs[i])
  }

  /** The pairs the filter keeps, in their input order. */
  function AdjacentPairs(pairs: seq<TilePair>, dim: Option<int>): seq<TilePair>
    requires AllOverlapping3D(pairs)
    decreases |pairs|
  {
    if |pairs| == 0 then []
    else
      var last := pairs[|pairs| - 1];
      AdjacentPairs(pairs[..|pairs| - 1], dim) + (if Kept(last, dim) then [last] else [])
  }

  /** The private `filterAdjacentPairs(overlappingPairs, Integer dim)`. */
  method FilterAdjacentPairs(overlappingPairs: seq<TilePair>, dim: Option<int>) returns (adjacentPairs: seq<TilePair>)
    requires AllOverlapping3D(overlappingPairs)
    ensures adjacentPairs == AdjacentPairs(overlappingPairs, dim)
  {
    adjacentPairs := [];
    for i := 0 to |overlappingPairs|
      invariant adjacentPairs == AdjacentPairs(overlappingPairs[..i], dim)
    {
      assert overlappingPairs[..i + 1][..i] == overlappingPairs[..i];
      var pair := overlappingPairs[i];
      var shortEdges := ShortEdges(pair);
      if KeepCondition(shortEdges, dim) {
        adjacentPairs := adjacentPairs + [pair];
      }
    }
    assert overlappingPairs[..|overlappingPairs|] == overlappingPairs;
  }

  /** `filterAdjacentPairs(overlappingPairs, int dim)`. */
  method FilterAdjacentPairsAlong(overlappingPairs: seq<TilePair>, dim: int) returns (adjacentPairs: seq<TilePair>)
    requires AllOverlapping3D(overlappingPairs)
    ensures adjacentPairs == AdjacentPairs(overlappingPairs, Some(dim))
  {
    adjacentPairs := FilterAdjacentPairs(overlappingPairs, Some(dim));
  }

  /** `filterAdjacentPairs(overlappingPairs)`: adjacency along any axis. */
  method FilterAdjacentPairsAny(overlappingPairs: seq<TilePair>) returns (adjacentPairs: seq<TilePair>)
    requires AllOverlapping3D(overlappingPairs)
    ensures adjacentPairs == AdjacentPairs(overlappingPairs, None)
  {
    adjacentPairs := FilterAdjacentPairs(overlappingPairs, None);
  }

  /** A pair is in the result exactly when it is one of the input pairs and
      is short along one axis only, that axis being `dim` when given. */
  lemma {:induction false} AdjacentPairsMembers(pairs: seq<TilePair>, dim: Option<int>, p: TilePair)
    requires AllOverlapping3D(pairs)
    ensures p in AdjacentPairs(pairs, dim) <==>
      p in pairs && exists a :: 0 <= a < 3 && OnlyShortAxis(ShortEdges(p), a) && (dim.None? || dim.value == a)
    decreases |pairs|
  {
    if |pairs| != 0 {
      var prefix := pairs[..|pairs| - 1];
      AdjacentPairsMembers(prefix, dim, p);
      assert pairs == prefix + [pairs[|pairs| - 1]];
      if p in pairs {
        KeepConditionIff(ShortEdges(p), dim);
      }
    }
  }

  /** The result is no longer than the input and holds only pairs of the
      input, each at most as often (its order is the input's by the
      definition of `AdjacentPairs`, which appends in input order). */
  lemma {:induction false} AdjacentPairsSubsequence(pairs: seq<TilePair>, dim: Option<int>)
    requires AllOverlapping3D(pairs)
    ensures |AdjacentPairs(pairs, dim)| <= |pairs|
    ensures multiset(AdjacentPairs(pairs, dim)) <= multiset(pairs)
    decreases |pairs|
  {
    if |pairs| != 0 {
      var prefix, last := pairs[..|pairs| - 1], pairs[|pairs| - 1];
      AdjacentPairsSubsequence(prefix, dim);
      assert pairs == prefix + [last];
      assert multiset(if Kept(last, dim) then [last] else []) <= multiset{last};
    }
  }

  /** Every pair adjacent along some axis is adjacent along exactly one of
      x, y and z: the three per-axis results partition the unrestricted one. */
  lemma {:induction false} AdjacentPairsPartition(pairs: seq<TilePair>)
    requires AllOverlapping3D(pairs)
    ensures multiset(AdjacentPairs(pairs, None)) ==
      multiset(AdjacentPairs(pairs, Some(0))) + multiset(AdjacentPairs(pairs, Some(1))) + multiset(AdjacentPairs(pairs, Some(2)))
    decreases |pairs|
  {
    if |pairs| != 0 {
      var prefix, last := pairs[..|pairs| - 1], pairs[|pairs| - 1];
      AdjacentPairsPartition(prefix);
      KeptAlongOneAxis(last);
    }
  }

  /** A pair kept for adjacency along some axis is kept along exactly one of
      x, y and z, and a pair not kept is kept along none. */
  lemma KeptAlongOneAxis(p: TilePair)
    requires Overlapping3D(p)
    ensures multiset(if Kept(p, None) then [p] else [])
      == multiset(if Kept(p, Some(0)) then [p] else []) + multiset(if Kept(p, Some(1)) then [p] else [])
         + multiset(if Kept(p, Some(2)) then [p] else [])
  {
    var s := ShortEdges(p);
    KeepConditionIff(s, None);
    KeepConditionIff(s, Some(0));
    KeepConditionIff(s, Some(1));
    KeepConditionIff(s, Some(2));
    if Kept(p, None) {
      var a :| 0 <= a < 3 && OnlyShortAxis(s, a);
      forall b | 0 <= b < 3 && OnlyShortAxis(s, b)
        ensures b == a
      {
        OnlyShortAxisUnique(s, a, b);
      }
    }
  }

  /** An axis other than x, y and z keeps nothing. */
  lemma {:induction false} AdjacentPairsOtherAxis(pairs: seq<TilePair>, dim: int)
    requires AllOverlapping3D(pairs) && !(0 <= dim < 3)
    ensures AdjacentPairs(pairs, Some(dim)) == []
    decreases |pairs|
  {
    if |pairs| != 0 {
      AdjacentPairsOtherAxis(pairs[..|pairs| - 1], dim);
    }
  }

  // ----- The command over stored pairwise shifts -----

  /** The value of a peak (one `SerializablePairWiseStitchingResult`): its
      tile pair and its validity flag. */
  datatype PeakView = PeakView(pair: TilePair, isValidOverlap: bool)

  /** A stored peak of a pairwise shift, updated in place by the command. */
  class Peak {
    var pair: TilePair
    var isValidOverlap: bool

    constructor (pair: TilePair, isValidOverlap: bool)
      ensures this.pair == pair && this.isValidOverlap == isValidOverlap
    {
      this.pair := pair;
      this.isValidOverlap := isValidOverlap;
    }

    function View(): PeakView
      reads this
    {
      PeakView(pair, isValidOverlap)
    }

    /** `swap`: exchange the two tiles of the pair. */
    method Swap()
      modifies this
      ensures pair == Swapped(old(pair)) && isValidOverlap == old(isValidOverlap)
    {
      pair := Swapped(pair);
    }

    method SetIsValidOverlap(valid: bool)
      modifies this
      ensures isValidOverlap == valid && pair == old(pair)
    {
      isValidOverlap := valid;
    }
  }

  /** The peaks of one shift are distinct objects. */
  predicate DistinctPeaks(shift: seq<Peak>) {
    forall j, l :: 0 <= j < l < |shift| ==> shift[j] != shift[l]
  }

  function Views(shift: seq<Peak>): (v: seq<PeakView>)
    reads shift
    ensures |v| == |shift|
  {
    seq(|shift|, j reads shift requires 0 <= j < |shift| => shift[j].View())
  }

  /** What the command does with one shift (an array of peaks of one pair).
      `Failed` is a shift whose peaks are all valid but on which the command
      throws: it has no peak (`shift[0]` is out of bounds), its first pair's
      tiles lack a size or do not overlap (a `null` is dereferenced), or the
      condition reads an axis the overlap does not have (`shortEdges[1]` or
      `shortEdges[2]` is out of bounds).  A two-axis overlap short on both
      axes is not among them: the condition skips it first. */
  datatype Outcome = Skipped | Rejected | Accepted(swapped: bool) | Failed

  predicate AllValid(views: seq<PeakView>) {
    forall j :: 0 <= j < |views| ==> views[j].isValidOverlap
  }

  /** A shift whose first pair's short edges the command can compute: at
      least one peak, and its first peak's tiles have sizes and overlap. */
  predicate ReadableShift(views: seq<PeakView>) {
    |views| > 0 && Overlapping(views[0].pair)
  }

  /** A shift whose first pair the whole condition can be evaluated on: its
      tiles overlap in at least three dimensions. */
  predicate ProcessableShift(views: seq<PeakView>) {
    |views| > 0 && Overlapping3D(views[0].pair)
  }

  /** A readable first pair with exactly two axes, both short (two tiles
      meeting at a corner): the condition skips it before reading a third
      axis. */
  predicate CornerShift(views: seq<PeakView>) {
    && ReadableShift(views)
    && |views[0].pair.first.position| == 2
    && ShortEdges(views[0].pair)[0] && ShortEdges(views[0].pair)[1]
  }

  /** The command throws on this shift: it is not skipped, and the
      condition cannot be evaluated on it. */
  predicate Fails(views: seq<PeakView>) {
    AllValid(views) && !ProcessableShift(views) && !CornerShift(views)
  }

  /** The first short axis, or the number of axes when none is. */
  function FirstShortAxis(s: seq<bool>): (a: nat)
    ensures a <= |s|
    ensures forall b :: 0 <= b < a ==> !s[b]
    ensures a < |s| ==> s[a]
    decreases |s|
  {
    if |s| == 0 then 0
    else if s[0] then 0
    else 1 + FirstShortAxis(s[1..])
  }

  /** The pair is oriented against the first short axis of `s`. */
  predicate OrientedAgainst(s: seq<bool>, p: TilePair) {
    var a := FirstShortAxis(s);
    a < |s| && a < |p.first.position| && a < |p.second.position| && p.first.position[a] > p.second.position[a]
  }

  predicate NeedsSwap(p: TilePair)
    requires Overlapping(p)
  {
    OrientedAgainst(ShortEdges(p), p)
  }

  /** Skipped when some peak is already invalid; rejected when the first
      pair has two axes, both short; failed when the condition cannot be
      evaluated otherwise; rejected when the first peak's pair is not
      adjacent (along `dim`); accepted otherwise, with a swap when the pair
      is oriented against its short axis. */
  function Classify(views: seq<PeakView>, dim: Option<int>): Outcome {
    if !AllValid(views) then Skipped
    else if !ProcessableShift(views) then (if CornerShift(views) then Rejected else Failed)
    else if !Kept(views[0].pair, dim) then Rejected
    else Accepted(NeedsSwap(views[0].pair))
  }

  /** On an all-valid shift whose short edges can be computed, the outcome
      is what the source's condition evaluates to: it throws, skips the
      shift, or keeps it. */
  lemma ClassifyFollowsCondition(views: seq<PeakView>, dim: Option<int>)
    requires AllValid(views) && ReadableShift(views)
    ensures var c := SkipCondition(ShortEdges(views[0].pair), dim);
      Classify(views, dim) == if c.None? then Failed else if c.value then Rejected else Accepted(NeedsSwap(views[0].pair))
  {
    SkipConditionReads(ShortEdges(views[0].pair), dim);
  }

  /** Two 100 x 100 tiles at (0, 0) and (90, 90) overlap in a 10 x 10
      corner, short on both axes: the command rejects the shift and goes on. */
  lemma CornerPairRejected(dim: Option<int>)
    ensures var a := TileInfo(0, "a", [0, 0], Some([100, 100]), []);
      var b := TileInfo(1, "b", [90, 90], Some([100, 100]), []);
      Classify([PeakView(TilePair(a, b), true)], dim) == Rejected
  {
    var a := TileInfo(0, "a", [0, 0], Some([100, 100]), []);
    var b := TileInfo(1, "b", [90, 90], Some([100, 100]), []);
    var corner := TilePair(a, b);
    assert Boundaries(a) == Box([0, 0], [99, 99]);
    assert Boundaries(b) == Box([90, 90], [189, 189]);
    var lo, hi := LowerCorner(Boundaries(a), Boundaries(b)), UpperCorner(Boundaries(a), Boundaries(b));
    assert lo[0] == 90 && lo[1] == 90 && hi[0] == 99 && hi[1] == 99;
    assert lo == [90, 90] && hi == [99, 99];
    assert OverlapOf(corner) == Some(Box([90, 90], [99, 99]));
    assert ShortEdges(corner) == [true, true];
  }

  /** The same tiles side by side, at (0, 0) and (90, 0), overlap short on
      the first axis only: the condition reads `shortEdges[2]` and the
      command throws. */
  lemma SidePairFails(dim: Option<int>)
    ensures var a := TileInfo(0, "a", [0, 0], Some([100, 100]), []);
      var b := TileInfo(1, "b", [90, 0], Some([100, 100]), []);
      Classify([PeakView(TilePair(a, b), true)], dim) == Failed
  {
    var a := TileInfo(0, "a", [0, 0], Some([100, 100]), []);
    var b := TileInfo(1, "b", [90, 0], Some([100, 100]), []);
    var side := TilePair(a, b);
    assert Boundaries(a) == Box([0, 0], [99, 99]);
    assert Boundaries(b) == Box([90, 0], [189, 99]);
    var lo, hi := LowerCorner(Boundaries(a), Boundaries(b)), UpperCorner(Boundaries(a), Boundaries(b));
    assert lo[0] == 90 && lo[1] == 0 && hi[0] == 99 && hi[1] == 99;
    assert lo == [90, 0] && hi == [99, 99];
    assert OverlapOf(side) == Some(Box([90, 0], [99, 99]));
    assert ShortEdges(side) == [true, false];
  }

  function SetValidity(views: seq<PeakView>, valid: bool): (r: seq<PeakView>)
    ensures |r| == |views|
    ensures forall j :: 0 <= j < |views| ==> r[j] == views[j].(isValidOverlap := valid)
  {
    seq(|views|, j requires 0 <= j < |views| => views[j].(isValidOverlap := valid))
  }

  function SwapPairs(views: seq<PeakView>): (r: seq<PeakView>)
    ensures |r| == |views|
    ensures forall j :: 0 <= j < |views| ==> r[j] == views[j].(pair := Swapped(views[j].pair))
  {
    seq(|views|, j requires 0 <= j < |views| => views[j].(pair := Swapped(views[j].pair)))
  }

  /** The peaks of a shift after the command has dealt with it.  A failing
      shift has had its peaks invalidated before the command throws. */
  function Apply(views: seq<PeakView>, o: Outcome): (r: seq<PeakView>)
    ensures |r| == |views|
  {
    match o
    case Skipped => views
    case Rejected => SetValidity(views, false)
    case Failed => SetValidity(views, false)
    case Accepted(swap) => SetValidity(if swap then SwapPairs(views) else views, true)
  }

  /** The counters and collections the command accumulates: the indexes of
      the accepted shifts (`adjacentShifts`), `validShifts`, the validation
      map from the smaller to the larger tile indexes, `validationCount` and
      `swappedCount`. */
  datatype Summary = Summary(
    accepted: seq<nat>,
    validShifts: nat,
    validation: map<int, set<int>>,
    validationCount: nat,
    swappedCount: nat)

  /** One step of the command's loop over the shift at index `i`. */
  function Step(s: Summary, i: nat, pair: TilePair, o: Outcome): Summary {
    match o
    case Skipped => s
    case Rejected => s.(validShifts := s.validShifts + 1)
    case Failed => s.(validShifts := s.validShifts + 1)
    case Accepted(swap) =>
      var (ind1, ind2) := PairKey(pair);
      Summary(
        s.accepted + [i],
        s.validShifts + 1,
        s.validation[ind1 := (if ind1 in s.validation then s.validation[ind1] else {}) + {ind2}],
        s.validationCount + 1,
        s.swappedCount + (if swap then 1 else 0))
  }

  /** The counters after the outcomes `outcomes` of the shifts whose first
      pairs are `pairs`. */
  function Tally(pairs: seq<TilePair>, outcomes: seq<Outcome>): (s: Summary)
    requires |pairs| == |outcomes|
    ensures forall k :: 0 <= k < |s.accepted| ==> s.accepted[k] < |outcomes|
    decreases |outcomes|
  {
    if |outcomes| == 0 then Summary([], 0, map[], 0, 0)
    else
      var i := |outcomes| - 1;
      Step(Tally(pairs[..i], outcomes[..i]), i, pairs[i], outcomes[i])
  }

  /** Stands for the first pair of a shift without peaks; such a shift is
      never accepted, so its pair is never used. */
  const NoPair := TilePair(TileInfo(0, "", [], None, []), TileInfo(0, "", [], None, []))

  function FirstPair(views: seq<PeakView>): TilePair {
    if |views| == 0 then NoPair else views[0].pair
  }

  function FirstPairs(views: seq<seq<PeakView>>): (r: seq<TilePair>)
    ensures |r| == |views| && forall i :: 0 <= i < |views| ==> r[i] == FirstPair(views[i])
  {
    seq(|views|, i requires 0 <= i < |views| => FirstPair(views[i]))
  }

  function Outcomes(views: seq<seq<PeakView>>, dim: Option<int>): (r: seq<Outcome>)
    ensures |r| == |views| && forall i :: 0 <= i < |views| ==> r[i] == Classify(views[i], dim)
  {
    seq(|views|, i requires 0 <= i < |views| => Classify(views[i], dim))
  }

  /** A step appends the shift's index to the accepted ones exactly when it
      accepts the shift. */
  lemma StepAccepted(s: Summary, i: nat, pair: TilePair, o: Outcome)
    ensures Step(s, i, pair, o).accepted == s.accepted + (if o.Accepted? then [i] else [])
  {
  }

  /** The elements of `xs` at the indexes `idx`, in that order. */
  function Select<T>(xs: seq<T>, idx: seq<nat>): (r: seq<T>)
    requires forall k :: 0 <= k < |idx| ==> idx[k] < |xs|
    ensures |r| == |idx| && forall k :: 0 <= k < |idx| ==> r[k] == xs[idx[k]]
  {
    seq(|idx|, k requires 0 <= k < |idx| => xs[idx[k]])
  }

  /** Selecting one more index appends that element. */
  lemma SelectSnoc<T>(xs: seq<T>, idx: seq<nat>, i: nat)
    requires (forall k :: 0 <= k < |idx| ==> idx[k] < |xs|) && i < |xs|
    ensures Select(xs, idx + [i]) == Select(xs, idx) + [xs[i]]
  {
  }

  /** One more shift extends the tally by one step. */
  lemma TallySnoc(pairs: seq<TilePair>, outcomes: seq<Outcome>, i: nat)
    requires |pairs| == |outcomes| && i < |outcomes|
    ensures Tally(pairs[..i + 1], outcomes[..i + 1]) == Step(Tally(pairs[..i], outcomes[..i]), i, pairs[i], outcomes[i])
  {
    assert pairs[..i + 1][..i] == pairs[..i] && outcomes[..i + 1][..i] == outcomes[..i];
  }

  /** The command's counters over all shifts. */
  function Summarize(views: seq<seq<PeakView>>, dim: Option<int>): (s: Summary)
    ensures forall k :: 0 <= k < |s.accepted| ==> s.accepted[k] < |views|
  {
    Tally(FirstPairs(views), Outcomes(views, dim))
  }

  /** The index of the first shift on which the command throws, or the
      number of shifts when there is none. */
  function FirstFailing(views: seq<seq<PeakView>>): (n: nat)
    ensures n <= |views|
    ensures forall k :: 0 <= k < n ==> !Fails(views[k])
    ensures n < |views| ==> Fails(views[n])
    decreases |views|
  {
    if |views| == 0 then 0
    else if Fails(views[0]) then 0
    else 1 + FirstFailing(views[1..])
  }

  /** The command throws on no shift. */
  predicate NoneFail(views: seq<seq<PeakView>>) {
    forall i :: 0 <= i < |views| ==> !Fails(views[i])
  }

  datatype CommandError = UnknownValue | UnprocessableShift(index: nat)

  /** The optional axis argument: empty for any axis, or one of x, y, z. */
  function ParseDim(dimStr: string): (r: Result<Option<int>, CommandError>)
    ensures r.Ok? && r.value.Some? ==> 0 <= r.value.value < 3
    ensures r.Err? ==> r.error == UnknownValue
  {
    if dimStr == "" then Ok(None)
    else if dimStr == "x" then Ok(Some(0))
    else if dimStr == "y" then Ok(Some(1))
    else if dimStr == "z" then Ok(Some(2))
    else Err(UnknownValue)
  }

  function AxisName(a: nat): string
    requires a < 3
  {
    ["x", "y", "z"][a]
  }

  /** The command states its condition on the argument string; once the
      string is accepted, that condition is the filter's condition on the
      parsed axis. */
  lemma ParseDimCondition(dimStr: string, a: nat)
    requires ParseDim(dimStr).Ok? && a < 3
    ensures (dimStr != "" && dimStr != AxisName(a)) <==>
            (ParseDim(dimStr).value.Some? && ParseDim(dimStr).value.value != a)
  {
  }

  /** The peaks of the shifts are pairwise distinct objects. */
  predicate DistinctShifts(shifts: seq<seq<Peak>>) {
    && (forall i :: 0 <= i < |shifts| ==> DistinctPeaks(shifts[i]))
    && forall i, k, j, l :: 0 <= i < k < |shifts| && 0 <= j < |shifts[i]| && 0 <= l < |shifts[k]| ==> shifts[i][j] != shifts[k][l]
  }

  /** Every peak of the shift has validity `valid`. */
  method SetAllValid(shift: seq<Peak>, valid: bool)
    requires DistinctPeaks(shift)
    modifies shift
    ensures Views(shift) == SetValidity(old(Views(shift)), valid)
  {
    for peak := 0 to |shift|
      invariant forall j :: 0 <= j < peak ==> shift[j].View() == old(shift[j].View()).(isValidOverlap := valid)
      invariant forall j :: peak <= j < |shift| ==> shift[j].View() == old(shift[j].View())
    {
      shift[peak].SetIsValidOverlap(valid);
    }
  }

  /** Every peak of the shift has its pair swapped. */
  method SwapAll(shift: seq<Peak>)
    requires DistinctPeaks(shift)
    modifies shift
    ensures Views(shift) == SwapPairs(old(Views(shift)))
  {
    for peak := 0 to |shift|
      invariant forall j :: 0 <= j < peak ==> shift[j].View() == old(shift[j].View()).(pair := Swapped(old(shift[j].pair)))
      invariant forall j :: peak <= j < |shift| ==> shift[j].View() == old(shift[j].View())
    {
      shift[peak].Swap();
    }
  }

  /** The first inner loop of loop `A`: are all peaks of the shift valid? */
  method AllPeaksValid(shift: seq<Peak>) returns (valid: bool)
    ensures valid == AllValid(Views(shift))
  {
    for peak := 0 to |shift|
      invariant forall j :: 0 <= j < peak ==> shift[j].isValidOverlap
    {
      if !shift[peak].isValidOverlap {
        assert !Views(shift)[peak].isValidOverlap;
        return false;
      }
    }
    return true;
  }

  /** The swap loop of loop `A`: at the first short axis, swap every peak
      when the first tile lies beyond the second; report whether it did. */
  method OrientAlongShortAxis(shift: seq<Peak>, pair: TilePair, shortEdges: seq<bool>) returns (swap: bool)
    requires DistinctPeaks(shift) && |shortEdges| <= |pair.first.position| && |shortEdges| <= |pair.second.position|
    modifies shift
    ensures swap == OrientedAgainst(shortEdges, pair)
    ensures Views(shift) == if swap then SwapPairs(old(Views(shift))) else old(Views(shift))
  {
    swap := false;
    for d := 0 to |shortEdges|
      invariant forall b :: 0 <= b < d ==> !shortEdges[b]
      invariant !swap && Views(shift) == old(Views(shift))
    {
      if shortEdges[d] {
        if pair.first.position[d] > pair.second.position[d] {
          SwapAll(shift);
          swap := true;
        }
        break;
      }
    }
  }

  /** Invalidating, swapping and validating again is swapping and validating. */
  lemma SetValiditySwapPairs(views: seq<PeakView>, swap: bool)
    ensures SetValidity(if swap then SwapPairs(SetValidity(views, false)) else SetValidity(views, false), true)
         == SetValidity(if swap then SwapPairs(views) else views, true)
  {
  }

  /** The body of the command's loop `A` for one shift; `Failed` is where
      the source throws. */
  method ProcessShift(shift: seq<Peak>, dim: Option<int>) returns (o: Outcome)
    requires DistinctPeaks(shift)
    modifies shift
    ensures o == Classify(old(Views(shift)), dim)
    ensures Views(shift) == Apply(old(Views(shift)), o)
  {
    var valid := AllPeaksValid(shift);
    if !valid {
      return Skipped;
    }
    ghost var before := Views(shift);
    SetAllValid(shift, false);
    var readable := |shift| > 0 && Overlapping(shift[0].pair);
    assert readable == ReadableShift(before) by {
      if |shift| > 0 {
        assert Views(shift)[0] == shift[0].View();
      }
    }
    if !readable {
      return Failed;
    }
    o := ProcessReadableShift(shift, dim, before);
  }

  /** The rest of loop `A`'s body once the peaks of an all-valid, readable
      shift are invalidated: evaluate the condition, orient, validate again. */
  method ProcessReadableShift(shift: seq<Peak>, dim: Option<int>, ghost before: seq<PeakView>) returns (o: Outcome)
    requires DistinctPeaks(shift) && AllValid(before) && ReadableShift(before)
    requires Views(shift) == SetValidity(before, false)
    modifies shift
    ensures o == Classify(before, dim)
    ensures Views(shift) == Apply(before, o)
  {
    assert Views(shift)[0] == shift[0].View();
    var pair := shift[0].pair;
    var shortEdges := ShortEdges(pair);
    var skip := SkipCondition(shortEdges, dim);
    ClassifyFollowsCondition(before, dim);
    if skip.None? {
      return Failed;
    }
    if skip.value {
      return Rejected;
    }
    var swap := OrientAlongShortAxis(shift, pair, shortEdges);
    SetAllValid(shift, true);
    SetValiditySwapPairs(before, swap);
    o := Accepted(swap);
  }

  /** `ProcessShift` on the shift at index `i`: the peaks of the other shifts
      are other objects and keep their values. */
  method ProcessShiftAt(shifts: seq<seq<Peak>>, i: nat, dim: Option<int>) returns (o: Outcome)
    requires DistinctShifts(shifts) && i < |shifts|
    modifies shifts[i]
    ensures o == Classify(old(Views(shifts[i])), dim)
    ensures Views(shifts[i]) == Apply(old(Views(shifts[i])), o)
    ensures forall k :: 0 <= k < |shifts| && k != i ==> Views(shifts[k]) == old(Views(shifts[k]))
  {
    o := ProcessShift(shifts[i], dim);
    forall k | 0 <= k < |shifts| && k != i
      ensures Views(shifts[k]) == old(Views(shifts[k]))
    {
      assert forall j :: 0 <= j < |shifts[k]| ==> shifts[k][j] !in shifts[i];
      assert forall j :: 0 <= j < |shifts[k]| ==> Views(shifts[k])[j] == old(Views(shifts[k])[j]);
    }
  }

  /** What the command leaves besides the updated peaks: the list of adjacent
      shifts it built and its counters. */
  datatype CommandResult = CommandResult(adjacentShifts: seq<seq<Peak>>, summary: Summary)

  /** The shifts hold the peak values `views`. */
  predicate HoldViews(shifts: seq<seq<Peak>>, views: seq<seq<PeakView>>)
    reads set i, j | 0 <= i < |shifts| && 0 <= j < |shifts[i]| :: shifts[i][j]
  {
    |views| == |shifts| && forall i :: 0 <= i < |shifts| ==> Views(shifts[i]) == views[i]
  }

  /** The state of loop `A` before shift `i`: the shifts before `i` hold
      their processed values, the others their original values, and the
      counters and the list of adjacent shifts cover the shifts before `i`. */
  predicate LoopState(shifts: seq<seq<Peak>>, dim: Option<int>, before: seq<seq<PeakView>>, i: nat,
                      adjacentShifts: seq<seq<Peak>>, summary: Summary)
    requires |before| == |shifts| && i <= |shifts|
    reads set i, j | 0 <= i < |shifts| && 0 <= j < |shifts[i]| :: shifts[i][j]
  {
    var outcomes := Outcomes(before, dim);
    && (forall k :: 0 <= k < |shifts| ==>
          Views(shifts[k]) == if k < i then Apply(before[k], outcomes[k]) else before[k])
    && summary == Tally(FirstPairs(before)[..i], outcomes[..i])
    && adjacentShifts == Select(shifts, summary.accepted)
  }

  /** The body of loop `A` for the shift at index `i`; it reports the
      shift's outcome so that the loop can stop where the source throws. */
  method VisitShift(shifts: seq<seq<Peak>>, dim: Option<int>, ghost before: seq<seq<PeakView>>, i: nat,
                    adjacentShifts: seq<seq<Peak>>, summary: Summary)
      returns (adjacentShifts': seq<seq<Peak>>, summary': Summary, o: Outcome)
    requires DistinctShifts(shifts) && |before| == |shifts| && i < |shifts|
    requires LoopState(shifts, dim, before, i, adjacentShifts, summary)
    modifies shifts[i]
    ensures o == Classify(before[i], dim)
    ensures LoopState(shifts, dim, before, i + 1, adjacentShifts', summary')
  {
    ghost var pairs, outcomes := FirstPairs(before), Outcomes(before, dim);
    TallySnoc(pairs, outcomes, i);
    var first := NoPair;
    if |shifts[i]| > 0 {
      assert Views(shifts[i])[0] == shifts[i][0].View();
      first := shifts[i][0].pair;
    }
    assert first == pairs[i];
    o := ProcessShiftAt(shifts, i, dim);
    assert o == outcomes[i];
    StepAccepted(summary, i, first, o);
    summary' := Step(summary, i, first, o);
    adjacentShifts' := adjacentShifts;
    if o.Accepted? {
      SelectSnoc(shifts, summary.accepted, i);
      adjacentShifts' := adjacentShifts + [shifts[i]];
    }
  }

  /** Before the first failing shift, a shift ends loop `A` exactly when it
      is the first failing one. */
  lemma FirstFailingStep(views: seq<seq<PeakView>>, dim: Option<int>, i: nat)
    requires i <= FirstFailing(views) && i < |views|
    ensures Classify(views[i], dim).Failed? ==> FirstFailing(views) == i
    ensures !Classify(views[i], dim).Failed? ==> i + 1 <= FirstFailing(views)
  {
  }

  /** Loop `A` of the command over the loaded shifts, for a parsed axis;
      `before` are the values of the peaks when the command starts.  The loop
      ends after the last shift, or after the first shift it cannot read
      (`failed`), which by then it has processed like the shifts before it. */
  method RunLoop(shifts: seq<seq<Peak>>, dim: Option<int>, ghost before: seq<seq<PeakView>>)
      returns (adjacentShifts: seq<seq<Peak>>, summary: Summary, i: nat, failed: bool)
    requires DistinctShifts(shifts) && HoldViews(shifts, before)
    modifies set i, j | 0 <= i < |shifts| && 0 <= j < |shifts[i]| :: shifts[i][j]
    ensures i <= |shifts| && LoopState(shifts, dim, before, i, adjacentShifts, summary)
    ensures if failed then i == FirstFailing(before) + 1 else i == FirstFailing(before) == |shifts|
  {
    adjacentShifts := [];
    summary := Summary([], 0, map[], 0, 0);
    i, failed := 0, false;
    while i < |shifts| && !failed
      invariant i <= |shifts|
      invariant LoopState(shifts, dim, before, i, adjacentShifts, summary)
      invariant if failed then i == FirstFailing(before) + 1 else i <= FirstFailing(before)
    {
      var o;
      adjacentShifts, summary, o := VisitShift(shifts, dim, before, i, adjacentShifts, summary);
      FirstFailingStep(before, dim, i);
      failed := o.Failed?;
      i := i + 1;
    }
  }

  /** Loop `A` with its outcome: an error naming the first shift the command
      cannot read, or the adjacent shifts and the counters. */
  method FilterShiftsLoop(shifts: seq<seq<Peak>>, dim: Option<int>, ghost before: seq<seq<PeakView>>)
      returns (r: Result<CommandResult, CommandError>)
    requires DistinctShifts(shifts) && HoldViews(shifts, before)
    modifies set i, j | 0 <= i < |shifts| && 0 <= j < |shifts[i]| :: shifts[i][j]
    ensures var n := FirstFailing(before); forall i :: 0 <= i < |shifts| ==>
      Views(shifts[i]) == if i <= n then Apply(before[i], Classify(before[i], dim)) else before[i]
    ensures r.Ok? <==> NoneFail(before)
    ensures r.Err? ==> r.error == UnprocessableShift(FirstFailing(before))
    ensures r.Ok? ==> r.value.summary == Summarize(before, dim)
    ensures r.Ok? ==> r.value.adjacentShifts == Select(shifts, r.value.summary.accepted)
  {
    var adjacentShifts, summary, i, failed := RunLoop(shifts, dim, before);
    LoopStopsAt(shifts, dim, before, i, adjacentShifts, summary);
    if failed {
      return Err(UnprocessableShift(i - 1));
    }
    assert FirstPairs(before)[..|shifts|] == FirstPairs(before);
    assert Outcomes(before, dim)[..|shifts|] == Outcomes(before, dim);
    r := Ok(CommandResult(adjacentShifts, summary));
  }

  /** Where loop `A` stops, after the first failing shift or after the last
      one, the shifts up to the first failing one are processed and the
      others untouched. */
  lemma LoopStopsAt(shifts: seq<seq<Peak>>, dim: Option<int>, before: seq<seq<PeakView>>, i: nat,
                    adjacentShifts: seq<seq<Peak>>, summary: Summary)
    requires |before| == |shifts| && i <= |shifts|
    requires LoopState(shifts, dim, before, i, adjacentShifts, summary)
    requires i == FirstFailing(before) + 1 || i == FirstFailing(before) == |shifts|
    ensures forall k :: 0 <= k < |shifts| ==>
      Views(shifts[k]) == if k <= FirstFailing(before) then Apply(before[k], Classify(before[k], dim)) else before[k]
  {
  }

  /** The command (`main`): parse the axis argument, then run loop `A`; the
      peaks are updated in place, and it is the updated shifts that the
      command saves when it does not throw. */
  method FilterAdjacentShifts(shifts: seq<seq<Peak>>, dimStr: string, ghost before: seq<seq<PeakView>>)
      returns (r: Result<CommandResult, CommandError>)
    requires DistinctShifts(shifts) && HoldViews(shifts, before)
    modifies set i, j | 0 <= i < |shifts| && 0 <= j < |shifts[i]| :: shifts[i][j]
    ensures ParseDim(dimStr).Err? ==> r == Err(UnknownValue) && HoldViews(shifts, before)
    ensures ParseDim(dimStr).Ok? ==> (r.Ok? <==> NoneFail(before))
    ensures ParseDim(dimStr).Ok? && r.Err? ==> r.error == UnprocessableShift(FirstFailing(before))
    ensures ParseDim(dimStr).Ok? ==> var dim, n := ParseDim(dimStr).value, FirstFailing(before);
      forall i :: 0 <= i < |shifts| ==>
        Views(shifts[i]) == if i <= n then Apply(before[i], Classify(before[i], dim)) else before[i]
    ensures r.Ok? ==> r.value.summary == Summarize(before, ParseDim(dimStr).value)
    ensures r.Ok? ==> r.value.adjacentShifts == Select(shifts, r.value.summary.accepted)
  {
    var parsed := ParseDim(dimStr);
    if parsed.Err? {
      return Err(UnknownValue);
    }
    r := FilterShiftsLoop(shifts, parsed.value, before);
  }

  // ----- What the command computes -----

  /** How many of the outcomes are not `Skipped`. */
  function Processed(outcomes: seq<Outcome>): nat
    decreases |outcomes|
  {
    if |outcomes| == 0 then 0
    else Processed(outcomes[..|outcomes| - 1]) + (if outcomes[|outcomes| - 1].Skipped? then 0 else 1)
  }

  /** The tally lists the accepted shifts in increasing order, counts one
      validation per accepted shift, swaps at most those, and counts as valid
      every shift that was not skipped. */
  lemma {:induction false} TallyAccepted(pairs: seq<TilePair>, outcomes: seq<Outcome>)
    requires |pairs| == |outcomes|
    ensures var s := Tally(pairs, outcomes);
      && s.validationCount == |s.accepted|
      && s.swappedCount <= |s.accepted| <= s.validShifts
      && s.validShifts == Processed(outcomes)
      && (forall k, l :: 0 <= k < l < |s.accepted| ==> s.accepted[k] < s.accepted[l])
      && forall i :: i in s.accepted <==> 0 <= i < |outcomes| && outcomes[i].Accepted?
    decreases |outcomes|
  {
    if |outcomes| != 0 {
      var i := |outcomes| - 1;
      TallyAccepted(pairs[..i], outcomes[..i]);
      assert forall k :: 0 <= k < i ==> outcomes[..i][k] == outcomes[k];
    }
  }
  /** The validation map holds exactly the index pairs (smaller, larger) of
      the accepted shifts' first pairs. */
  lemma {:induction false} TallyValidation(pairs: seq<TilePair>, outcomes: seq<Outcome>)
    requires |pairs| == |outcomes|
    ensures var s := Tally(pairs, outcomes);
      && (forall k :: 0 <= k < |s.accepted| ==>
            var key := PairKey(pairs[s.accepted[k]]);
            key.0 in s.validation && key.1 in s.validation[key.0])
      && (forall a, b :: a in s.validation && b in s.validation[a] ==>
            exists k :: 0 <= k < |s.accepted| && PairKey(pairs[s.accepted[k]]) == (a, b))
    decreases |outcomes|
  {
    if |outcomes| != 0 {
      var i := |outcomes| - 1;
      TallyValidation(pairs[..i], outcomes[..i]);
      var t, s := Tally(pairs[..i], outcomes[..i]), Tally(pairs, outcomes);
      assert forall k :: 0 <= k < i ==> pairs[..i][k] == pairs[k];
      StepValidation(t, i, pairs[i], outcomes[i]);
      StepAccepted(t, i, pairs[i], outcomes[i]);
      forall k | 0 <= k < |s.accepted|
        ensures Validated(s.validation, PairKey(pairs[s.accepted[k]]))
      {
        if k < |t.accepted| {
          assert Validated(t.validation, PairKey(pairs[..i][t.accepted[k]]));
        }
      }
      forall a, b | a in s.validation && b in s.validation[a]
        ensures exists k :: 0 <= k < |s.accepted| && PairKey(pairs[s.accepted[k]]) == (a, b)
      {
        assert Validated(s.validation, (a, b));
        if Validated(t.validation, (a, b)) {
          var k :| 0 <= k < |t.accepted| && PairKey(pairs[..i][t.accepted[k]]) == (a, b);
          assert s.accepted[k] == t.accepted[k];
        } else {
          assert s.accepted[|t.accepted|] == i;
        }
      }
    }
  }

  /** Both indexes of `key` are recorded in the validation map. */
  predicate Validated(validation: map<int, set<int>>, key: (int, int)) {
    key.0 in validation && key.1 in validation[key.0]
  }

  /** A step records the key of the shift's first pair when it accepts the
      shift, and nothing else. */
  lemma StepValidation(s: Summary, i: nat, pair: TilePair, o: Outcome)
    ensures forall key ::
      Validated(Step(s, i, pair, o).validation, key) <==> Validated(s.validation, key) || (o.Accepted? && key == PairKey(pair))
  {
  }


  /** The first pairs of the shifts the command reads (all peaks valid, first
      pair readable), in order. */
  function ValidFirstPairs(views: seq<seq<PeakView>>): (r: seq<TilePair>)
    ensures AllOverlapping3D(r)
    decreases |views|
  {
    if |views| == 0 then []
    else
      var i := |views| - 1;
      ValidFirstPairs(views[..i]) + (if AllValid(views[i]) && ProcessableShift(views[i]) then [views[i][0].pair] else [])
  }

  /** How many shifts have all their peaks valid. */
  function ValidShiftCount(views: seq<seq<PeakView>>): nat
    decreases |views|
  {
    if |views| == 0 then 0
    else ValidShiftCount(views[..|views| - 1]) + (if AllValid(views[|views| - 1]) then 1 else 0)
  }

  /** `validShifts` counts the shifts whose peaks were all valid, among them
      every shift whose first pair the filter reads. */
  lemma {:induction false} SummarizeValidShifts(views: seq<seq<PeakView>>, dim: Option<int>)
    ensures Summarize(views, dim).validShifts == ValidShiftCount(views)
    ensures |ValidFirstPairs(views)| <= Summarize(views, dim).validShifts
    decreases |views|
  {
    var pairs, outcomes := FirstPairs(views), Outcomes(views, dim);
    TallyAccepted(pairs, outcomes);
    if |views| != 0 {
      var i := |views| - 1;
      var prefix := views[..i];
      SummarizeValidShifts(prefix, dim);
      assert FirstPairs(prefix) == pairs[..i];
      assert Outcomes(prefix, dim) == outcomes[..i];
      TallyAccepted(pairs[..i], outcomes[..i]);
    }
  }

  /** The accepted shifts are exactly those whose peaks were all valid and
      whose first pair is readable and adjacent (along `dim`). */
  lemma SummarizeAccepted(views: seq<seq<PeakView>>, dim: Option<int>, i: int)
    ensures i in Summarize(views, dim).accepted <==>
      0 <= i < |views| && AllValid(views[i]) && ProcessableShift(views[i]) && Kept(views[i][0].pair, dim)
  {
    TallyAccepted(FirstPairs(views), Outcomes(views, dim));
  }

  /** The pairs of the accepted shifts, in order. */
  function AcceptedPairs(views: seq<seq<PeakView>>, dim: Option<int>): seq<TilePair> {
    var s := Summarize(views, dim);
    seq(|s.accepted|, k requires 0 <= k < |s.accepted| => FirstPair(views[s.accepted[k]]))
  }

  /** The accepted shifts' first pairs are, in order, what
      `filterAdjacentPairs` keeps of the first pairs of the valid shifts. */
  lemma {:induction false} SummarizeMatchesFilter(views: seq<seq<PeakView>>, dim: Option<int>)
    ensures AcceptedPairs(views, dim) == AdjacentPairs(ValidFirstPairs(views), dim)
    decreases |views|
  {
    if |views| != 0 {
      var i := |views| - 1;
      var prefix := views[..i];
      SummarizeMatchesFilter(prefix, dim);
      AcceptedPairsStep(views, dim);
      if AllValid(views[i]) && ProcessableShift(views[i]) {
        var last := views[i][0].pair;
        assert ValidFirstPairs(views) == ValidFirstPairs(prefix) + [last];
        AdjacentPairsSnoc(ValidFirstPairs(prefix), last, dim);
      } else {
        assert ValidFirstPairs(views) == ValidFirstPairs(prefix);
        assert AcceptedPairs(views, dim) == AcceptedPairs(prefix, dim);
      }
    }
  }

  lemma AdjacentPairsSnoc(pairs: seq<TilePair>, p: TilePair, dim: Option<int>)
    requires AllOverlapping3D(pairs) && Overlapping3D(p)
    ensures AllOverlapping3D(pairs + [p])
    ensures AdjacentPairs(pairs + [p], dim) == AdjacentPairs(pairs, dim) + (if Kept(p, dim) then [p] else [])
  {
    assert (pairs + [p])[..|pairs|] == pairs;
  }

  /** The last shift adds its first pair to the accepted pairs exactly when it
      is accepted. */
  lemma AcceptedPairsStep(views: seq<seq<PeakView>>, dim: Option<int>)
    requires |views| > 0
    ensures var i := |views| - 1;
      AcceptedPairs(views, dim) == AcceptedPairs(views[..i], dim) +
        (if AllValid(views[i]) && ProcessableShift(views[i]) && Kept(views[i][0].pair, dim) then [views[i][0].pair] else [])
  {
    var i := |views| - 1;
    var pairs, outcomes := FirstPairs(views), Outcomes(views, dim);
    assert FirstPairs(views[..i]) == pairs[..i];
    assert Outcomes(views[..i], dim) == outcomes[..i];
    var s0, s := Summarize(views[..i], dim), Summarize(views, dim);
    assert s == Step(s0, i, pairs[i], outcomes[i]);
    StepAccepted(s0, i, pairs[i], outcomes[i]);
    AcceptedPairsSnoc(views, dim, s0.accepted, outcomes[i].Accepted?);
  }

  /** The accepted pairs when the accepted indexes gain the last shift or not. */
  lemma AcceptedPairsSnoc(views: seq<seq<PeakView>>, dim: Option<int>, before: seq<nat>, accepted: bool)
    requires |views| > 0
    requires Summarize(views[..|views| - 1], dim).accepted == before
    requires Summarize(views, dim).accepted == before + (if accepted then [|views| - 1] else [])
    ensures var i := |views| - 1;
      AcceptedPairs(views, dim) == AcceptedPairs(views[..i], dim) + (if accepted then [FirstPair(views[i])] else [])
  {
    var i := |views| - 1;
    var a, a0 := AcceptedPairs(views, dim), AcceptedPairs(views[..i], dim);
    assert forall k :: 0 <= k < |before| ==> a[k] == a0[k];
  }

  /** `validationCount` equals the number of adjacent shifts and every
      adjacent shift's pair is in the validation map (the consistency check
      the source keeps disabled). */
  lemma SummarizeValidation(views: seq<seq<PeakView>>, dim: Option<int>)
    ensures var s := Summarize(views, dim);
      && s.validationCount == |s.accepted|
      && s.swappedCount <= |s.accepted|
      && forall k :: 0 <= k < |s.accepted| ==>
           var key := PairKey(FirstPair(views[s.accepted[k]]));
           key.0 in s.validation && key.1 in s.validation[key.0]
  {
    TallyAccepted(FirstPairs(views), Outcomes(views, dim));
    TallyValidation(FirstPairs(views), Outcomes(views, dim));
  }

  /** The first short axis of a kept pair is its only short axis. */
  lemma FirstShortAxisOfKept(p: TilePair, dim: Option<int>) returns (a: nat)
    requires Overlapping3D(p) && Kept(p, dim)
    ensures OnlyShortAxis(ShortEdges(p), a) && (dim.None? || dim.value == a)
    ensures FirstShortAxis(ShortEdges(p)) == a
  {
    KeepConditionIff(ShortEdges(p), dim);
    a :| 0 <= a < 3 && OnlyShortAxis(ShortEdges(p), a) && (dim.None? || dim.value == a);
  }

  /** An accepted shift ends with all peaks valid, each pair swapped or each
      left as it was, and its first tile no further along the short axis than
      its second. */
  lemma AcceptedShiftOriented(views: seq<PeakView>, dim: Option<int>)
    requires Classify(views, dim).Accepted?
    ensures ProcessableShift(views)
    ensures var r := Apply(views, Classify(views, dim));
      && AllValid(r)
      && ((forall j :: 0 <= j < |r| ==> r[j].pair == views[j].pair) ||
          (forall j :: 0 <= j < |r| ==> r[j].pair == Swapped(views[j].pair)))
    ensures var r := Apply(views, Classify(views, dim));
      exists a :: 0 <= a < 3 && OnlyShortAxis(ShortEdges(views[0].pair), a) && r[0].pair.first.position[a] <= r[0].pair.second.position[a]
  {
    var a := FirstShortAxisOfKept(views[0].pair, dim);
  }

  /** Running the command's processing again over its own output changes
      nothing: kept pairs stay kept in either order, an oriented pair needs
      no swap, and an invalidated shift is skipped. */
  lemma ApplyIdempotent(views: seq<PeakView>, dim: Option<int>)
    ensures var r := Apply(views, Classify(views, dim));
      Apply(r, Classify(r, dim)) == r
  {
    var o := Classify(views, dim);
    if o.Accepted? {
      AcceptedIdempotent(views, dim);
    } else if o != Skipped {
      InvalidatedIdempotent(views, dim);
    }
  }

  /** An invalidated shift is skipped, or has no peak to change. */
  lemma InvalidatedIdempotent(views: seq<PeakView>, dim: Option<int>)
    ensures var r := SetValidity(views, false);
      Apply(r, Classify(r, dim)) == r
  {
    var r := SetValidity(views, false);
    if |views| > 0 {
      assert !r[0].isValidOverlap;
    }
  }

  /** An accepted shift is accepted again without a swap. */
  lemma AcceptedIdempotent(views: seq<PeakView>, dim: Option<int>)
    requires Classify(views, dim).Accepted?
    ensures var r := Apply(views, Classify(views, dim));
      Classify(r, dim) == Accepted(false) && Apply(r, Accepted(false)) == r
  {
    var swap := Classify(views, dim).swapped;
    var r := Apply(views, Accepted(swap));
    AcceptedFirstPairOriented(views, dim);
    ValidatedUnchanged(r);
  }

  /** After acceptance, the first pair is still readable, still kept and
      needs no swap. */
  lemma AcceptedFirstPairOriented(views: seq<PeakView>, dim: Option<int>)
    requires Classify(views, dim).Accepted?
    ensures var r := Apply(views, Classify(views, dim));
      AllValid(r) && ProcessableShift(r) && Kept(r[0].pair, dim) && !NeedsSwap(r[0].pair)
  {
    var swap := Classify(views, dim).swapped;
    var r := Apply(views, Accepted(swap));
    var p := views[0].pair;
    ShortEdgesSwapped(p);
    var a := FirstShortAxisOfKept(p, dim);
    if swap {
      assert r[0].pair == Swapped(p);
      assert ShortEdges(r[0].pair) == ShortEdges(p);
    } else {
      assert r[0].pair == p;
    }
  }

  /** Marking an all-valid shift valid changes nothing. */
  lemma ValidatedUnchanged(views: seq<PeakView>)
    requires AllValid(views)
    ensures SetValidity(views, true) == views
  {
    var r := SetValidity(views, true);
    assert forall j :: 0 <= j < |views| ==> r[j] == views[j];
  }
}
