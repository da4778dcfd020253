/** The per-level arithmetic of the pyramid built by
    `PipelineFusionStepExecutor.runImpl`: downsampling factors and cell sizes
    of a level, the in-place reset after the XY-only tier, the choice of that
    tier, and the extent test that ends the level loop. */
module FusionLevels {
  import opened Base

  /** The two rounded floating-point quantities of the level set-up, taken as
      integers: `isotropic(level, d)` stands for `round(2^level / v[d])` and
      `singleCellSize[d]` for `round(fusionCellSize / v[d])`, where `v` is the
      normalized voxel size.  The job's dimensionality is `|singleCellSize|`. */
  datatype Scaling = Scaling(isotropic: (nat, nat) -> int, singleCellSize: seq<int>, fusionCellSize: int)

  /** Normalized voxel sizes are at least 1 (they are divided by the smallest),
      so the isotropic scaling of a level never exceeds `2^level`; every
      single-cell size is positive. */
  ghost predicate WellScaled(s: Scaling) {
    && (forall d :: 0 <= d < |s.singleCellSize| ==> s.singleCellSize[d] >= 1)
    && (forall level: nat, d: nat :: d < |s.singleCellSize| ==> s.isotropic(level, d) <= Pow2(level))
  }

  /** `fullDownsampleFactors[d]`: the isotropic scaling, but never below 1. */
  function FullFactor(s: Scaling, level: nat, d: nat): (f: int)
    ensures f >= 1
    ensures f >= s.isotropic(level, d)
  {
    if s.isotropic(level, d) < 1 then 1 else s.isotropic(level, d)
  }

  /** `downsampleFactors[d]`: relative to the level before, in-plane axes are
      halved from level 1 on, while the Z axis jumps straight to its full factor. */
  function StepFactor(s: Scaling, level: nat, d: nat): int {
    if d == 2 then FullFactor(s, level, d) else if level == 0 then 1 else 2
  }

  /** `cellSize[d]`: the Z cell is stretched so that, once downsampled by the
      step factor, it still spans `2^level` single cells. */
  function CellSize(s: Scaling, level: nat, d: nat): int
    requires d < |s.singleCellSize|
  {
    s.singleCellSize[d] * (if d == 2 then Pow2(level) / StepFactor(s, level, d) else 1)
  }

  function FullFactors(s: Scaling, level: nat): seq<int> {
    seq(|s.singleCellSize|, d requires 0 <= d < |s.singleCellSize| => FullFactor(s, level, d))
  }

  function StepFactors(s: Scaling, level: nat): seq<int> {
    seq(|s.singleCellSize|, d requires 0 <= d < |s.singleCellSize| => StepFactor(s, level, d))
  }

  function CellSizes(s: Scaling, level: nat): seq<int> {
    seq(|s.singleCellSize|, d requires 0 <= d < |s.singleCellSize| => CellSize(s, level, d))
  }

  /** `upscaledCellSize`: the extent of a cell before downsampling. */
  function UpscaledSizes(s: Scaling, level: nat): seq<int> {
    seq(|s.singleCellSize|, d requires 0 <= d < |s.singleCellSize| => StepFactor(s, level, d) * CellSize(s, level, d))
  }

  /** The per-axis loop of the level set-up, filling four fresh arrays. */
  method LevelGeometry(s: Scaling, level: nat) returns (full: array<int>, down: array<int>, cellSize: array<int>, upscaled: array<int>)
    ensures fresh(full) && fresh(down) && fresh(cellSize) && fresh(upscaled)
    ensures full != down && full != cellSize && full != upscaled
    ensures down != cellSize && down != upscaled && cellSize != upscaled
    ensures full[..] == FullFactors(s, level) && down[..] == StepFactors(s, level)
    ensures cellSize[..] == CellSizes(s, level) && upscaled[..] == UpscaledSizes(s, level)
  {
    var n := |s.singleCellSize|;
    full := new int[n];
    down := new int[n];
    cellSize := new int[n];
    upscaled := new int[n];
    for d := 0 to n
      invariant forall k :: 0 <= k < d ==> full[k] == FullFactor(s, level, k) && down[k] == StepFactor(s, level, k)
      invariant forall k :: 0 <= k < d ==> cellSize[k] == CellSize(s, level, k) && upscaled[k] == down[k] * cellSize[k]
    {
      var isotropicScaling := s.isotropic(level, d);
      full[d] := if isotropicScaling < 1 then 1 else isotropicScaling;
      down[d] := if d == 2 then full[d] else if level == 0 then 1 else 2;
      cellSize[d] := s.singleCellSize[d] * (if d == 2 then Pow2(level) / down[d] else 1);
      upscaled[d] := down[d] * cellSize[d];
    }
  }

  /** Every factor is at least 1; the in-plane step is 1 at level 0 and 2
      afterwards; the Z step is the full Z factor; the upscaled size is the
      step factor times the cell size on every axis. */
  lemma LevelFactors(s: Scaling, level: nat)
    ensures forall d :: 0 <= d < |s.singleCellSize| ==> FullFactors(s, level)[d] >= 1 && StepFactors(s, level)[d] >= 1
    ensures forall d :: 0 <= d < |s.singleCellSize| && d != 2 ==> StepFactors(s, level)[d] == (if level == 0 then 1 else 2)
    ensures |s.singleCellSize| > 2 ==> StepFactors(s, level)[2] == FullFactors(s, level)[2]
    ensures forall d :: 0 <= d < |s.singleCellSize| ==> UpscaledSizes(s, level)[d] == StepFactors(s, level)[d] * CellSizes(s, level)[d]
  {
  }

  /** With well-scaled inputs every cell size is positive, so no index
      computation divides by zero. */
  lemma CellSizesPositive(s: Scaling, level: nat)
    requires WellScaled(s)
    ensures forall d :: 0 <= d < |s.singleCellSize| ==> CellSizes(s, level)[d] >= 1
  {
    forall d | 0 <= d < |s.singleCellSize|
      ensures CellSize(s, level, d) >= 1
    {
      if d == 2 {
        var f := StepFactor(s, level, d);
        assert 1 <= f <= Pow2(level);
        assert Pow2(level) / f >= 1;
        MulAtLeastOne(s.singleCellSize[d], Pow2(level) / f);
      }
    }
  }

  lemma MulAtLeastOne(a: int, b: int)
    requires a >= 1 && b >= 1
    ensures a * b >= 1
  {
  }

  /** The Z cell, upscaled by its step factor, spans `2^level` single cells,
      less the remainder of `2^level` by the factor: exactly `2^level` when the
      factor divides it. */
  lemma ZCellSpansLevel(s: Scaling, level: nat)
    requires |s.singleCellSize| > 2 && s.singleCellSize[2] >= 1
    ensures var c, p, f := s.singleCellSize[2], Pow2(level), FullFactor(s, level, 2);
      && c * (p - f) < UpscaledSizes(s, level)[2] <= c * p
      && (p % f == 0 ==> UpscaledSizes(s, level)[2] == c * p)
  {
    var c, p, f := s.singleCellSize[2], Pow2(level), FullFactor(s, level, 2);
    assert UpscaledSizes(s, level)[2] == f * (c * (p / f));
    SpanBounds(c, p, f);
  }

  /** A multiple `c` of `p` rounded down to a multiple of `f`. */
  lemma SpanBounds(c: int, p: int, f: int)
    requires c >= 1 && f >= 1
    ensures c * (p - f) < f * (c * (p / f)) <= c * p
    ensures p % f == 0 ==> f * (c * (p / f)) == c * p
  {
    var q := p / f;
    assert q * f + p % f == p && 0 <= p % f < f;
    assert f * (c * q) == c * (q * f);
    MulMonotone(c, p - f, q * f);
    if q * f < p {
      MulMonotone(c, q * f, p);
    }
  }

  lemma MulMonotone(c: int, x: int, y: int)
    requires c >= 1 && x < y
    ensures c * x < c * y
  {
    assert c * y - c * x == c * (y - x);
  }

  /** Lines 243-247: once the XY-only tier is built, the in-plane factors
      become 1 and the in-plane upscaled size becomes the cell size; the
      relation `upscaled == factor * cellSize` is kept on every axis. */
  method ResetXy(down: array<int>, upscaled: array<int>, cellSize: array<int>)
    requires down.Length == upscaled.Length == cellSize.Length >= 2
    requires down != upscaled && down != cellSize && upscaled != cellSize
    requires forall d :: 0 <= d < down.Length ==> upscaled[d] == down[d] * cellSize[d]
    modifies down, upscaled
    ensures down[..] == [1, 1] + old(down[2..])
    ensures upscaled[..] == cellSize[..2] + old(upscaled[2..])
    ensures forall d :: 0 <= d < down.Length ==> upscaled[d] == down[d] * cellSize[d]
  {
    for d := 0 to 2
      invariant forall k :: 0 <= k < d ==> down[k] == 1 && upscaled[k] == cellSize[k]
      invariant forall k :: d <= k < down.Length ==> down[k] == old(down[k]) && upscaled[k] == old(upscaled[k])
    {
      down[d] := 1;
      upscaled[d] := cellSize[d];
    }
  }

  /** The in-plane factors and upscaled sizes after the XY-only tier. */
  function AfterXyReset(v: seq<int>, w: seq<int>): seq<int>
    requires |v| >= 2 && |w| >= 2
  {
    v[..2] + w[2..]
  }

  datatype LevelError = ArrayIndexOutOfBounds

  /** Line 141 as written: `downsampleFactors[2] == 1 || dims < 3` reads the
      Z factor before testing the dimensionality. */
  function UsesXyTierAsWritten(down: seq<int>, dims: nat): Result<bool, LevelError> {
    if |down| <= 2 then Err(ArrayIndexOutOfBounds) else Ok(!(down[2] == 1 || dims < 3))
  }

  /** Line 127 as written: a resumed level points at its `-xy` tier unless
      the Z factor is 1, again reading `downsampleFactors[2]` unguarded. */
  function ResumesFromXyAsWritten(down: seq<int>): Result<bool, LevelError> {
    if |down| <= 2 then Err(ArrayIndexOutOfBounds) else Ok(down[2] != 1)
  }

  /** Line 141 with the dimensionality tested first: the XY-only tier is
      built only for a Z factor other than 1 in a job of three or more dimensions. */
  function UsesXyTier(down: seq<int>, dims: nat): bool
    requires |down| == dims
  {
    !(dims < 3 || down[2] == 1)
  }

  /** Line 127 guarded the same way. */
  function ResumesFromXy(down: seq<int>, dims: nat): bool
    requires |down| == dims
  {
    UsesXyTier(down, dims)
  }

  /** For a two-dimensional job both tests as written throw at every level,
      so no level is produced; with the guard first a 2-D job never uses the
      XY-only tier, and for three or more dimensions the two readings agree. */
  lemma TwoDimensionalJobFailsAsWritten(down: seq<int>, dims: nat)
    requires |down| == dims
    ensures dims < 3 ==> UsesXyTierAsWritten(down, dims).Err? && ResumesFromXyAsWritten(down).Err?
    ensures dims < 3 ==> !UsesXyTier(down, dims) && !ResumesFromXy(down, dims)
    ensures dims >= 3 ==> UsesXyTierAsWritten(down, dims) == Ok(UsesXyTier(down, dims))
    ensures dims >= 3 ==> ResumesFromXyAsWritten(down) == Ok(ResumesFromXy(down, dims))
  {
  }

  /** At level 0 the Z factor is 1, so the XY-only tier is never built there
      and the previous level's cell size it needs always exists. */
  lemma NoXyTierAtLevelZero(s: Scaling)
    requires WellScaled(s)
    ensures !UsesXyTier(StepFactors(s, 0), |s.singleCellSize|)
  {
    if |s.singleCellSize| > 2 {
      assert s.isotropic(0, 2) <= Pow2(0);
    }
  }

  const LONG_MAX_VALUE: int := 0x7fff_ffff_ffff_ffff
  const LONG_MIN_VALUE: int := -0x8000_0000_0000_0000

  /** `minDimension` after the loop over the axes, starting from `Long.MAX_VALUE`. */
  function MinDimension(dims: seq<int>): int {
    if |dims| == 0 then LONG_MAX_VALUE
    else
      var m := MinDimension(dims[..|dims| - 1]);
      if dims[|dims| - 1] < m then dims[|dims| - 1] else m
  }

  /** `maxDimension` after the loop over the axes, starting from `Long.MIN_VALUE`. */
  function MaxDimension(dims: seq<int>): int {
    if |dims| == 0 then LONG_MIN_VALUE
    else
      var m := MaxDimension(dims[..|dims| - 1]);
      if dims[|dims| - 1] > m then dims[|dims| - 1] else m
  }

  /** Lines 344-350: the smallest and largest extent of the last level. */
  method Extremes(dims: seq<int>) returns (minDimension: int, maxDimension: int)
    ensures minDimension == MinDimension(dims) && maxDimension == MaxDimension(dims)
  {
    minDimension := LONG_MAX_VALUE;
    maxDimension := LONG_MIN_VALUE;
    for d := 0 to |dims|
      invariant minDimension == MinDimension(dims[..d]) && maxDimension == MaxDimension(dims[..d])
    {
      assert dims[..d + 1][..d] == dims[..d];
      minDimension := if dims[d] < minDimension then dims[d] else minDimension;
      maxDimension := if dims[d] > maxDimension then dims[d] else maxDimension;
    }
    assert dims[..|dims|] == dims;
  }

  /** Extents are Java `long`s. */
  predicate LongValues(dims: seq<int>) {
    forall d :: 0 <= d < |dims| ==> LONG_MIN_VALUE <= dims[d] <= LONG_MAX_VALUE
  }

  /** The level loop goes on after a level exactly when that level's extent
      is above 1 on every axis and above `4 * fusionCellSize` on some axis. */
  predicate Continues(minDimension: int, maxDimension: int, fusionCellSize: int) {
    minDimension > 1 && maxDimension > fusionCellSize * 4
  }

  lemma {:induction false} ContinuesIff(dims: seq<int>, fusionCellSize: int)
    requires |dims| > 0 && LongValues(dims) && fusionCellSize >= 0
    ensures Continues(MinDimension(dims), MaxDimension(dims), fusionCellSize)
        <==> (forall d :: 0 <= d < |dims| ==> dims[d] > 1) && (exists d :: 0 <= d < |dims| && dims[d] > fusionCellSize * 4)
  {
    MinDimensionBounds(dims);
    MaxDimensionBounds(dims);
  }

  /** The minimum is below every extent and, for at least one axis, equal to it. */
  lemma {:induction false} MinDimensionBounds(dims: seq<int>)
    requires LongValues(dims)
    ensures forall d :: 0 <= d < |dims| ==> MinDimension(dims) <= dims[d]
    ensures |dims| > 0 ==> exists d :: 0 <= d < |dims| && MinDimension(dims) == dims[d]
    ensures MinDimension(dims) <= LONG_MAX_VALUE
  {
    if |dims| > 0 {
      var prefix := dims[..|dims| - 1];
      MinDimensionBounds(prefix);
      assert forall d :: 0 <= d < |prefix| ==> prefix[d] == dims[d];
      if |prefix| == 0 {
        assert MinDimension(dims) == dims[0];
      } else if dims[|dims| - 1] >= MinDimension(prefix) {
        var d :| 0 <= d < |prefix| && MinDimension(prefix) == prefix[d];
        assert MinDimension(dims) == dims[d];
      }
    }
  }

  /** The maximum is above every extent and, for at least one axis, equal to it. */
  lemma {:induction false} MaxDimensionBounds(dims: seq<int>)
    requires LongValues(dims)
    ensures forall d :: 0 <= d < |dims| ==> dims[d] <= MaxDimension(dims)
    ensures |dims| > 0 ==> exists d :: 0 <= d < |dims| && MaxDimension(dims) == dims[d]
    ensures MaxDimension(dims) >= LONG_MIN_VALUE
  {
    if |dims| > 0 {
      var prefix := dims[..|dims| - 1];
      MaxDimensionBounds(prefix);
      assert forall d :: 0 <= d < |prefix| ==> prefix[d] == dims[d];
      if |prefix| == 0 {
        assert MaxDimension(dims) == dims[0];
      } else if dims[|dims| - 1] <= MaxDimension(prefix) {
        var d :| 0 <= d < |prefix| && MaxDimension(prefix) == prefix[d];
        assert MaxDimension(dims) == dims[d];
      }
    }
  }
}
