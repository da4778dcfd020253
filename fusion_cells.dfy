/** One tier of the fusion pyramid, cell by cell: the work the Spark map does
    on one cell of the partitioned space (drop it, or name its output file,
    blend it and shrink it to the downsampled grid), the store that holds
    tier configurations and cell images, and the output path layout the
    export metadata advertises. */
module FusionCells {
  import opened Base
  import opened Geometry

  /** `Long.toString` / string concatenation of a number, for `n >= 0`. */
  function DecimalDigits(n: nat): string
    decreases n
  {
    if n < 10 then ["0123456789"[n]] else DecimalDigits(n / 10) + ["0123456789"[n % 10]]
  }

  function IntString(i: int): string {
    if i < 0 then "-" + DecimalDigits(-i) else DecimalDigits(i)
  }

  /** `levelFolder`: `baseOutputFolder + "/" + level`. */
  function LevelFolder(base: string, level: nat): string {
    base + "/" + IntString(level)
  }

  /** `levelTmpFolder`: the level folder with the `-xy` suffix. */
  function XyFolder(base: string, level: nat): string {
    LevelFolder(base, level) + "-xy"
  }

  /** The output file of a cell with grid indexes `idx`: `folder/[z/]y/x.tif`,
      the `z` part only for cells of more than two dimensions. */
  function CellPath(folder: string, idx: seq<int>): string
    requires |idx| >= 2
  {
    folder + "/" + (if |idx| > 2 then IntString(idx[2]) + "/" else "") + IntString(idx[1]) + "/" + IntString(idx[0]) + ".tif"
  }

  /** A `String.format` template: literal text and positional `%k$d` arguments. */
  datatype TemplatePart = Text(text: string) | Arg(position: nat)

  /** One part as the template string spells it. */
  function RenderPart(p: TemplatePart): string {
    match p
    case Text(t) => t
    case Arg(k) => "%" + DecimalDigits(k) + "$d"
  }

  /** The template as the string the export metadata stores. */
  function Render(parts: seq<TemplatePart>): string {
    if |parts| == 0 then "" else RenderPart(parts[0]) + Render(parts[1..])
  }

  predicate ArgsWithin(parts: seq<TemplatePart>, count: nat) {
    forall i :: 0 <= i < |parts| && parts[i].Arg? ==> 1 <= parts[i].position <= count
  }

  /** One part with its argument substituted. */
  function FormatPart(p: TemplatePart, args: seq<int>): string
    requires p.Arg? ==> 1 <= p.position <= |args|
  {
    match p
    case Text(t) => t
    case Arg(k) => IntString(args[k - 1])
  }

  /** `String.format(template, args...)` for `%k$d` arguments. */
  function Format(parts: seq<TemplatePart>, args: seq<int>): string
    requires ArgsWithin(parts, |args|)
  {
    if |parts| == 0 then "" else FormatPart(parts[0], args) + Format(parts[1..], args)
  }

  /** The export template of line 364, with arguments (level, x, y, z). */
  function ExportTemplate(base: string): seq<TemplatePart> {
    [Text(base + "/"), Arg(1), Text("/"), Arg(4), Text("/"), Arg(3), Text("/"), Arg(2), Text(".tif")]
  }

  lemma SmallNumbers()
    ensures DecimalDigits(1) == "1" && DecimalDigits(2) == "2" && DecimalDigits(3) == "3" && DecimalDigits(4) == "4"
  {
  }

  /** The template string line 364 builds for the channel folder `base`. */
  function ExportTemplateString(base: string): string {
    base + "/%1$d/%4$d/%3$d/%2$d.tif"
  }

  /** The template is stored as `base/%1$d/%4$d/%3$d/%2$d.tif`. */
  lemma ExportTemplateText(base: string)
    ensures Render(ExportTemplate(base)) == ExportTemplateString(base)
  {
    RenderArgs(base);
    TemplateText(base);
  }

  lemma RenderArgs(base: string)
    ensures Render(ExportTemplate(base)[1..]) == "%1$d/%4$d/%3$d/%2$d.tif"
  {
    SmallNumbers();
    RenderTail(base);
    TemplateTexts();
  }

  lemma RenderTail(base: string)
    ensures Render(ExportTemplate(base)[3..]) == "%4$d/%3$d/%2$d.tif"
  {
    var t := ExportTemplate(base);
    SmallNumbers();
    RenderLast(base);
    TemplateTexts();
    assert t[3..] == [t[3], t[4]] + t[5..];
  }

  lemma RenderLast(base: string)
    ensures Render(ExportTemplate(base)[5..]) == "%3$d/%2$d.tif"
  {
    var t := ExportTemplate(base);
    SmallNumbers();
    assert Render(t[8..]) == ".tif" by { assert t[8..] == [Text(".tif")]; }
    assert Render(t[7..]) == "%2$d.tif" by { assert t[7..] == [Arg(2)] + t[8..]; }
    TemplateTexts();
  }

  lemma TemplateTexts()
    ensures "%3$d" + "/" + "%2$d.tif" == "%3$d/%2$d.tif"
    ensures "%4$d" + "/" + "%3$d/%2$d.tif" == "%4$d/%3$d/%2$d.tif"
    ensures "%1$d" + "/" + "%4$d/%3$d/%2$d.tif" == "%1$d/%4$d/%3$d/%2$d.tif"
  {
    JoinZ();
    JoinY();
    JoinX();
  }

  lemma JoinZ()
    ensures "%3$d" + "/" + "%2$d.tif" == "%3$d/%2$d.tif"
  {
  }

  lemma JoinY()
    ensures "%4$d" + "/" + "%3$d/%2$d.tif" == "%4$d/%3$d/%2$d.tif"
  {
  }

  lemma JoinX()
    ensures "%1$d" + "/" + "%4$d/%3$d/%2$d.tif" == "%1$d/%4$d/%3$d/%2$d.tif"
  {
  }

  lemma TemplateText(base: string)
    ensures (base + "/") + "%1$d/%4$d/%3$d/%2$d.tif" == base + "/%1$d/%4$d/%3$d/%2$d.tif"
  {
  }

  /** A three-dimensional cell of a level is written exactly where the export
      template, filled with the level and the cell's x, y, z indexes, points. */
  lemma CellPathFollowsExportTemplate(base: string, level: nat, idx: seq<int>)
    requires |idx| == 3
    ensures ArgsWithin(ExportTemplate(base), 4)
    ensures CellPath(LevelFolder(base, level), idx) == Format(ExportTemplate(base), [level, idx[0], idx[1], idx[2]])
  {
    var rest := "/" + (IntString(idx[2]) + ("/" + (IntString(idx[1]) + ("/" + (IntString(idx[0]) + ".tif")))));
    CellPathNested(LevelFolder(base, level), idx);
    FormatNested(base, level, idx);
    JoinFolder(base, IntString(level), rest);
  }

  lemma JoinFolder(base: string, level: string, rest: string)
    ensures (base + "/" + level) + rest == (base + "/") + (level + rest)
  {
  }

  lemma CellPathNested(folder: string, idx: seq<int>)
    requires |idx| == 3
    ensures CellPath(folder, idx)
      == folder + ("/" + (IntString(idx[2]) + ("/" + (IntString(idx[1]) + ("/" + (IntString(idx[0]) + ".tif"))))))
  {
  }

  lemma FormatNested(base: string, level: nat, idx: seq<int>)
    requires |idx| == 3
    ensures ArgsWithin(ExportTemplate(base), 4)
    ensures Format(ExportTemplate(base), [level, idx[0], idx[1], idx[2]])
      == (base + "/") + (IntString(level) + ("/" + (IntString(idx[2]) + ("/" + (IntString(idx[1]) + ("/" + (IntString(idx[0]) + ".tif")))))))
  {
    var t, args := ExportTemplate(base), [level, idx[0], idx[1], idx[2]];
    FormatTail(base, level, idx);
    var x, y, z := IntString(idx[0]), IntString(idx[1]), IntString(idx[2]);
    assert Format(t[1..], args) == IntString(level) + ("/" + (z + ("/" + (y + ("/" + (x + ".tif"))))));
  }

  lemma FormatTail(base: string, level: nat, idx: seq<int>)
    requires |idx| == 3
    ensures ArgsWithin(ExportTemplate(base)[3..], 4)
    ensures Format(ExportTemplate(base)[3..], [level, idx[0], idx[1], idx[2]])
      == IntString(idx[2]) + ("/" + (IntString(idx[1]) + ("/" + (IntString(idx[0]) + ".tif"))))
  {
    var t, args := ExportTemplate(base), [level, idx[0], idx[1], idx[2]];
    var x, y := IntString(idx[0]), IntString(idx[1]);
    assert Format(t[8..], args) == ".tif" by { assert t[8..] == [Text(".tif")]; }
    assert Format(t[7..], args) == x + ".tif" by { assert t[7..] == [Arg(2)] + t[8..]; }
    assert Format(t[5..], args) == y + ("/" + (x + ".tif"));
  }

  /** How one tier treats its cells: the per-axis factors it downsamples by,
      the cell size that turns a downsampled position into a grid index, the
      folder its images go to, whether cells are downsampled at all (at
      level 0 they are only blended), and the channel whose flat-field
      correction the level-0 blend applies. */
  datatype TierStep = TierStep(factors: seq<int>, cellSize: seq<int>, folder: string, downsampled: bool, channel: nat)

  predicate ValidStep(t: TierStep) {
    && |t.factors| >= 2 && |t.cellSize| == |t.factors|
    && forall d :: 0 <= d < |t.factors| ==> t.factors[d] >= 1 && t.cellSize[d] >= 1
  }

  /** A cell produced by the space partition, with the tier's dimensionality. */
  predicate CellFits(cell: TileInfo, t: TierStep) {
    ValidStep(t) && HasGeometry(cell, |t.factors|)
  }

  /** `cellIndices[d] = (min[d] / factor[d]) / cellSize[d]`. */
  function CellIndices(position: seq<int>, t: TierStep): (idx: seq<int>)
    requires ValidStep(t) && |position| == |t.factors|
    ensures |idx| == |position|
  {
    seq(|position|, d requires 0 <= d < |position| => JavaDiv(JavaDiv(position[d], t.factors[d]), t.cellSize[d]))
  }

  /** Each coordinate divided (as Java does) by its factor. */
  function Shrink(v: seq<int>, factors: seq<int>): (w: seq<int>)
    requires |v| == |factors| && forall d :: 0 <= d < |factors| ==> factors[d] >= 1
    ensures |w| == |v|
  {
    seq(|v|, d requires 0 <= d < |v| => JavaDiv(v[d], factors[d]))
  }

  /** The cell is skipped (`return null`): no tile lies in it, or some axis
      would be empty once downsampled. */
  predicate Dropped(cell: TileInfo, within: seq<TileInfo>, t: TierStep)
    requires CellFits(cell, t)
  {
    |within| == 0 || exists d :: 0 <= d < |t.factors| && JavaDiv(cell.size.value[d], t.factors[d]) <= 0
  }

  /** The body of the per-cell map: `None` for a skipped cell; otherwise the
      cell with its output path set and, when the tier downsamples, its
      position and size divided by the factors. */
  function FuseCell(cell: TileInfo, within: seq<TileInfo>, t: TierStep): Option<TileInfo>
    requires CellFits(cell, t)
  {
    if Dropped(cell, within, t) then None
    else
      var path := CellPath(t.folder, CellIndices(cell.position, t));
      if t.downsampled then
        Some(cell.(filePath := path, position := Shrink(cell.position, t.factors),
                   size := Some(Shrink(cell.size.value, t.factors))))
      else
        Some(cell.(filePath := path))
  }

  /** A cell is skipped exactly when it has no tiles or is thinner than its
      factor on some axis; a kept cell keeps its index, gets the path of its
      grid indexes, and has (when downsampled) position `min / factor` and
      size `size / factor`, at least one on every axis, or else its geometry
      unchanged. */
  lemma FuseCellSpec(cell: TileInfo, within: seq<TileInfo>, t: TierStep)
    requires CellFits(cell, t)
    ensures FuseCell(cell, within, t).None?
        <==> |within| == 0 || exists d :: 0 <= d < |t.factors| && cell.size.value[d] < t.factors[d]
    ensures FuseCell(cell, within, t).Some? ==>
      var k, n := FuseCell(cell, within, t).value, |t.factors|;
      && k.index == cell.index
      && k.filePath == CellPath(t.folder, CellIndices(cell.position, t))
      && HasGeometry(k, n)
      && (t.downsampled ==>
            forall d :: 0 <= d < n ==>
              && k.position[d] == JavaDiv(cell.position[d], t.factors[d])
              && k.size.value[d] == JavaDiv(cell.size.value[d], t.factors[d])
              && 1 <= k.size.value[d] <= cell.size.value[d])
      && (!t.downsampled ==> k.position == cell.position && k.size == cell.size)
  {
    var n := |t.factors|;
    forall d | 0 <= d < n
      ensures JavaDiv(cell.size.value[d], t.factors[d]) <= 0 <==> cell.size.value[d] < t.factors[d]
    {
      ShrinkAxis(cell.size.value[d], t.factors[d]);
    }
    if !Dropped(cell, within, t) && t.downsampled {
      var k := FuseCell(cell, within, t).value;
      forall d | 0 <= d < n
        ensures 1 <= k.size.value[d] <= cell.size.value[d]
      {
        ShrinkAxis(cell.size.value[d], t.factors[d]);
      }
    }
  }

  /** Dividing a non-negative extent by a factor of at least one. */
  lemma ShrinkAxis(size: int, f: int)
    requires size >= 0 && f >= 1
    ensures JavaDiv(size, f) <= 0 <==> size < f
    ensures JavaDiv(size, f) <= size
  {
    var q := JavaDiv(size, f);
    assert q * f <= size < q * f + f;
    if q > 0 {
      assert q * f >= q;
    }
  }

  /** In a downsampling tier the path names the cell of the downsampled grid
      that holds the kept cell's new position. */
  lemma PathIndexesLocateDownsampledCell(cell: TileInfo, within: seq<TileInfo>, t: TierStep)
    requires CellFits(cell, t) && t.downsampled && FuseCell(cell, within, t).Some?
    ensures var k := FuseCell(cell, within, t).value;
      forall d :: 0 <= d < |t.factors| ==> CellIndices(cell.position, t)[d] == JavaDiv(k.position[d], t.cellSize[d])
  {
  }

  /** The helpers of `TileOperations` the fusion step relies on, and the two
      blending kernels of `FusionPerformer`, none of which is part of this
      model: `divideSpace` cuts a box into cells of a given size,
      `boundaries` is `getCollectionBoundaries`, `tilesWithin` is
      `findTilesWithinSubregion`; `blend` is the full-resolution kernel,
      given the channel whose broadcast flat-field correction it applies,
      and `downsample` the kernel that fuses and downsamples by the factors. */
  datatype Env = Env(
    divideSpace: (Box, seq<int>) -> seq<TileInfo>,
    boundaries: seq<TileInfo> -> Box,
    tilesWithin: (seq<TileInfo>, TileInfo) -> seq<TileInfo>,
    blend: (seq<TileInfo>, Box, nat) -> seq<int>,
    downsample: (seq<TileInfo>, TileInfo, seq<int>) -> seq<int>)

  /** The helpers' contract for an `n`-dimensional job: the partition yields
      cells with a known `n`-dimensional geometry, and the bounding box of any
      collection is an `n`-dimensional box. */
  ghost predicate ValidEnv(env: Env, n: nat) {
    && (forall b, size, c :: c in env.divideSpace(b, size) ==> HasGeometry(c, n))
    && (forall cells :: WellFormedBox(env.boundaries(cells)) && |env.boundaries(cells).min| == n)
  }

  /** The image a kept cell's file receives. */
  function CellImage(cell: TileInfo, within: seq<TileInfo>, t: TierStep, env: Env): seq<int>
    requires CellFits(cell, t)
  {
    if t.downsampled then env.downsample(within, cell, t.factors) else env.blend(within, Boundaries(cell), t.channel)
  }

  predicate AllFit(cells: seq<TileInfo>, t: TierStep) {
    forall i :: 0 <= i < |cells| ==> CellFits(cells[i], t)
  }

  /** The per-cell map's outcome for cell `c` against the tiles of `source`. */
  function Fused(c: TileInfo, source: seq<TileInfo>, t: TierStep, env: Env): Option<TileInfo>
    requires CellFits(c, t)
  {
    FuseCell(c, env.tilesWithin(source, c), t)
  }

  /** `collect()`: the per-cell outcomes in partition order, `None` for a skipped cell. */
  function Outcomes(cells: seq<TileInfo>, source: seq<TileInfo>, t: TierStep, env: Env): (os: seq<Option<TileInfo>>)
    requires AllFit(cells, t)
    ensures |os| == |cells|
  {
    seq(|cells|, i requires 0 <= i < |cells| => Fused(cells[i], source, t, env))
  }

  /** `removeAll(Collections.singleton(null))`: the present outcomes, in order. */
  function Present(os: seq<Option<TileInfo>>): seq<TileInfo> {
    if |os| == 0 then []
    else
      var o := os[|os| - 1];
      Present(os[..|os| - 1]) + (if o.Some? then [o.value] else [])
  }

  lemma PresentSnoc(os: seq<Option<TileInfo>>, o: Option<TileInfo>)
    ensures Present(os + [o]) == Present(os) + (if o.Some? then [o.value] else [])
  {
    assert (os + [o])[..|os|] == os;
  }

  /** Removing the nulls keeps exactly the present values and never adds one. */
  lemma {:induction false} PresentMembers(os: seq<Option<TileInfo>>)
    ensures |Present(os)| <= |os|
    ensures forall k :: k in Present(os) <==> Some(k) in os
  {
    if |os| > 0 {
      var prefix, o := os[..|os| - 1], os[|os| - 1];
      PresentMembers(prefix);
      assert os == prefix + [o];
    }
  }

  /** The kept cells of a tier. */
  function KeptCells(cells: seq<TileInfo>, source: seq<TileInfo>, t: TierStep, env: Env): seq<TileInfo>
    requires AllFit(cells, t)
  {
    Present(Outcomes(cells, source, t, env))
  }

  /** At most one output per cell; an output is exactly the fused form of a
      cell that was not skipped. */
  lemma KeptCellsMembers(cells: seq<TileInfo>, source: seq<TileInfo>, t: TierStep, env: Env)
    requires AllFit(cells, t)
    ensures |KeptCells(cells, source, t, env)| <= |cells|
    ensures forall k :: k in KeptCells(cells, source, t, env) <==>
      exists i :: 0 <= i < |cells| && Fused(cells[i], source, t, env) == Some(k)
  {
    var os := Outcomes(cells, source, t, env);
    PresentMembers(os);
    forall k
      ensures k in Present(os) <==> exists i :: 0 <= i < |cells| && Fused(cells[i], source, t, env) == Some(k)
    {
      if k in Present(os) {
        var i :| 0 <= i < |os| && os[i] == Some(k);
        assert Fused(cells[i], source, t, env) == Some(k);
      }
      if exists i :: 0 <= i < |cells| && Fused(cells[i], source, t, env) == Some(k) {
        var i :| 0 <= i < |cells| && Fused(cells[i], source, t, env) == Some(k);
        assert os[i] == Some(k);
      }
    }
  }

  function PathsOf(cells: seq<TileInfo>): set<string> {
    set k | k in cells :: k.filePath
  }

  /** A tier configuration file: the configuration of a level, or of the
      XY-only tier built for a level (the `-xy` suffix), per channel. */
  datatype Tier = LevelConfig(channel: nat, level: nat) | XyConfig(channel: nat, level: nat)

  /** The files the fusion step reads and writes: tier configurations (lists
      of cells, as `TileInfoJSONProvider` saves them) and cell images. */
  class TierStore {
    var configs: map<Tier, seq<TileInfo>>
    var images: map<string, seq<int>>

    constructor (configs: map<Tier, seq<TileInfo>>)
      ensures this.configs == configs && images == map[]
    {
      this.configs := configs;
      images := map[];
    }

    /** `saveTilesConfiguration`; the source only logs a failed write, so
        here a write always takes effect. */
    method Save(tier: Tier, cells: seq<TileInfo>)
      modifies this
      ensures configs == old(configs)[tier := cells] && images == old(images)
    {
      configs := configs[tier := cells];
    }

    /** `saveTileImageToFile`. */
    method WriteImage(path: string, image: seq<int>)
      modifies this
      ensures images == old(images)[path := image] && configs == old(configs)
    {
      images := images[path := image];
    }
  }

  /** One distributed pass over a tier's cells (`parallelize`, `map` with the
      per-cell map, `collect`, `removeAll(null)`): every kept cell's image is
      written at its path, no other image changes, and the kept cells come
      back in partition order. */
  method FuseTier(store: TierStore, cells: seq<TileInfo>, source: seq<TileInfo>, t: TierStep, env: Env)
    returns (kept: seq<TileInfo>)
    requires AllFit(cells, t)
    modifies store
    ensures kept == KeptCells(cells, source, t, env)
    ensures store.configs == old(store.configs)
    ensures store.images == old(store.images) + WrittenImages(cells, source, t, env)
  {
    kept := [];
    for i := 0 to |cells|
      invariant kept == KeptCells(cells[..i], source, t, env)
      invariant store.configs == old(store.configs)
      invariant store.images == old(store.images) + WrittenImages(cells[..i], source, t, env)
    {
      var cell := cells[i];
      var within := env.tilesWithin(source, cell);
      var fused := Fused(cell, source, t, env);
      KeptCellsSnoc(cells, i, source, t, env);
      WrittenImagesSnoc(cells, i, source, t, env);
      if fused.Some? {
        MergeUpdate(old(store.images), WrittenImages(cells[..i], source, t, env), fused.value.filePath, CellImage(cell, within, t, env));
        store.WriteImage(fused.value.filePath, CellImage(cell, within, t, env));
        kept := kept + [fused.value];
      }
    }
    assert cells[..|cells|] == cells;
  }

  /** The images one pass writes, by path; a later cell written at the same
      path replaces an earlier one. */
  function WrittenImages(cells: seq<TileInfo>, source: seq<TileInfo>, t: TierStep, env: Env): map<string, seq<int>>
    requires AllFit(cells, t)
    decreases |cells|
  {
    if |cells| == 0 then map[]
    else
      var i := |cells| - 1;
      var written := WrittenImages(cells[..i], source, t, env);
      match Fused(cells[i], source, t, env)
      case None => written
      case Some(k) => written[k.filePath := CellImage(cells[i], env.tilesWithin(source, cells[i]), t, env)]
  }

  /** One more cell writes its image, if it is kept, over the images so far. */
  lemma WrittenImagesSnoc(cells: seq<TileInfo>, i: nat, source: seq<TileInfo>, t: TierStep, env: Env)
    requires AllFit(cells, t) && i < |cells|
    ensures var fused, written := Fused(cells[i], source, t, env), WrittenImages(cells[..i], source, t, env);
      WrittenImages(cells[..i + 1], source, t, env) ==
        if fused.Some? then written[fused.value.filePath := CellImage(cells[i], env.tilesWithin(source, cells[i]), t, env)]
        else written
  {
    assert cells[..i + 1][..i] == cells[..i];
  }

  /** Writing over a merged map is writing into its right-hand side. */
  lemma MergeUpdate(m: map<string, seq<int>>, w: map<string, seq<int>>, p: string, v: seq<int>)
    ensures (m + w)[p := v] == m + w[p := v]
  {
  }

  /** The pass writes exactly the paths of the kept cells. */
  lemma {:induction false} WrittenImagesKeys(cells: seq<TileInfo>, source: seq<TileInfo>, t: TierStep, env: Env)
    requires AllFit(cells, t)
    ensures WrittenImages(cells, source, t, env).Keys == PathsOf(KeptCells(cells, source, t, env))
    decreases |cells|
  {
    if |cells| > 0 {
      var i := |cells| - 1;
      WrittenImagesKeys(cells[..i], source, t, env);
      KeptCellsSnoc(cells, i, source, t, env);
      WrittenImagesSnoc(cells, i, source, t, env);
      assert cells[..i + 1] == cells;
      var fused := Fused(cells[i], source, t, env);
      if fused.Some? {
        PathsOfSnoc(KeptCells(cells[..i], source, t, env), fused.value);
      }
    }
  }

  /** A kept cell whose path no later kept cell shares holds, at that path,
      the image fused from the source tiles within it. */
  lemma {:induction false} WrittenImageAt(cells: seq<TileInfo>, source: seq<TileInfo>, t: TierStep, env: Env, i: nat)
    requires AllFit(cells, t) && i < |cells| && Fused(cells[i], source, t, env).Some?
    requires forall j :: i < j < |cells| && Fused(cells[j], source, t, env).Some? ==>
      Fused(cells[j], source, t, env).value.filePath != Fused(cells[i], source, t, env).value.filePath
    ensures var path := Fused(cells[i], source, t, env).value.filePath;
      path in WrittenImages(cells, source, t, env)
      && WrittenImages(cells, source, t, env)[path] == CellImage(cells[i], env.tilesWithin(source, cells[i]), t, env)
    decreases |cells|
  {
    var n := |cells| - 1;
    var prefix := cells[..n];
    var path := Fused(cells[i], source, t, env).value.filePath;
    WrittenImagesSnoc(cells, n, source, t, env);
    assert cells[..n + 1] == cells;
    if i < n {
      forall j | i < j < |prefix| && Fused(prefix[j], source, t, env).Some?
        ensures Fused(prefix[j], source, t, env).value.filePath != path
      {
        assert prefix[j] == cells[j];
      }
      assert prefix[i] == cells[i];
      WrittenImageAt(prefix, source, t, env, i);
    }
  }

  /** One more cell adds its fused form to the kept cells, if it has one. */
  lemma KeptCellsSnoc(cells: seq<TileInfo>, i: nat, source: seq<TileInfo>, t: TierStep, env: Env)
    requires AllFit(cells, t) && i < |cells|
    ensures var fused := Fused(cells[i], source, t, env);
      KeptCells(cells[..i + 1], source, t, env) == KeptCells(cells[..i], source, t, env) + (if fused.Some? then [fused.value] else [])
  {
    var fused := Fused(cells[i], source, t, env);
    assert Outcomes(cells[..i + 1], source, t, env) == Outcomes(cells[..i], source, t, env) + [fused];
    PresentSnoc(Outcomes(cells[..i], source, t, env), fused);
  }

  lemma PathsOfSnoc(cells: seq<TileInfo>, c: TileInfo)
    ensures PathsOf(cells + [c]) == PathsOf(cells) + {c.filePath}
  {
  }
}
