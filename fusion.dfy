/** `PipelineFusionStepExecutor.runImpl`: for each channel, builds the levels
    of the output pyramid one after the other.  A level whose configuration
    is already stored is resumed; otherwise its source (the previous level,
    or an XY-only tier built from the previous tier when the Z factor has
    moved on) is cut into cells, each cell is fused, and the non-empty cells
    form the level.  The loop stops at an empty level or once the level's
    extent is small; the factors and cell sizes of every produced level go
    into the channel's export metadata. */
module Fusion {
  import opened Base
  import opened Geometry
  import opened FusionLevels
  import opened FusionCells

  /** What the fusion step reads from the job: the scaling inputs, the
      helpers it calls, and `job.getBaseFolder()`. */
  datatype Job = Job(scaling: Scaling, env: Env, baseFolder: string)

  function Dims(job: Job): nat {
    |job.scaling.singleCellSize|
  }

  /** A two- or three-dimensional job with well-scaled inputs whose helpers
      keep their contract. */
  ghost predicate ValidJob(job: Job) {
    WellScaled(job.scaling) && 2 <= Dims(job) <= 3 && ValidEnv(job.env, Dims(job))
  }

  /** `baseOutputFolder`: `<base>/channel<ch>/fused`. */
  function ChannelFolder(job: Job, channel: nat): string {
    job.baseFolder + "/channel" + IntString(channel) + "/fused"
  }

  /** The factors the main tier of a level downsamples by, after the reset
      that follows an XY-only tier. */
  function MainFactors(s: Scaling, level: nat, xy: bool): seq<int>
    requires |s.singleCellSize| >= 2
  {
    if xy then AfterXyReset([1, 1], StepFactors(s, level)) else StepFactors(s, level)
  }

  /** The size of the cells the main tier's space is cut into. */
  function MainUpscaled(s: Scaling, level: nat, xy: bool): seq<int>
    requires |s.singleCellSize| >= 2
  {
    if xy then AfterXyReset(CellSizes(s, level), UpscaledSizes(s, level)) else UpscaledSizes(s, level)
  }

  function MainStep(job: Job, channel: nat, level: nat, xy: bool): TierStep
    requires Dims(job) >= 2
  {
    TierStep(MainFactors(job.scaling, level, xy), CellSizes(job.scaling, level),
             LevelFolder(ChannelFolder(job, channel), level), level != 0, channel)
  }

  /** `tmpDownsampleFactors`. */
  const XY_FACTORS: seq<int> := [2, 2, 1]

  /** `upscaledTmpCellSize`: the previous level's cell size times the XY factors. */
  function XyUpscaled(s: Scaling, level: nat): seq<int>
    requires level >= 1 && |s.singleCellSize| == 3
  {
    seq(3, d requires 0 <= d < 3 => CellSizes(s, level - 1)[d] * XY_FACTORS[d])
  }

  function XyStep(job: Job, channel: nat, level: nat): TierStep
    requires level >= 1
  {
    TierStep(XY_FACTORS, CellSizes(job.scaling, level - 1), XyFolder(ChannelFolder(job, channel), level), true, channel)
  }

  /** Both tiers of a level downsample by factors of at least 1 and index by
      positive cell sizes, so every cell of the partition fits them. */
  lemma StepsValid(job: Job, channel: nat, level: nat, xy: bool)
    requires ValidJob(job)
    ensures ValidStep(MainStep(job, channel, level, xy))
    ensures level >= 1 && Dims(job) == 3 ==> ValidStep(XyStep(job, channel, level))
  {
    LevelFactors(job.scaling, level);
    CellSizesPositive(job.scaling, level);
    if level >= 1 {
      CellSizesPositive(job.scaling, level - 1);
    }
  }

  lemma PartitionFits(job: Job, b: Box, size: seq<int>, t: TierStep)
    requires ValidJob(job) && ValidStep(t) && |t.factors| == Dims(job)
    ensures AllFit(job.env.divideSpace(b, size), t)
  {
    var cells := job.env.divideSpace(b, size);
    assert forall i :: 0 <= i < |cells| ==> cells[i] in cells;
  }

  datatype FusionError =
    /** Loading a tier configuration failed: the level cannot go on. */
    MissingConfiguration(tier: Option<Tier>)

  /** Every configuration stored before is still stored, unchanged. */
  predicate Extends(configs: map<Tier, seq<TileInfo>>, before: map<Tier, seq<TileInfo>>) {
    forall t :: t in before ==> t in configs && configs[t] == before[t]
  }

  /** The XY-only tier of a level, built from the previous tier: its cells
      are the previous tier's bounding box cut into cells of the previous
      cell size times {2, 2, 1}, fused and downsampled by {2, 2, 1}. */
  function XyTierCells(job: Job, channel: nat, level: nat, previous: seq<TileInfo>): seq<TileInfo>
    requires ValidJob(job) && Dims(job) == 3 && level >= 1
  {
    StepsValid(job, channel, level, false);
    var cells := job.env.divideSpace(job.env.boundaries(previous), XyUpscaled(job.scaling, level));
    PartitionFits(job, job.env.boundaries(previous), XyUpscaled(job.scaling, level), XyStep(job, channel, level));
    KeptCells(cells, previous, XyStep(job, channel, level), job.env)
  }

  /** The cell images written while building the XY-only tier of a level. */
  function XyTierImages(job: Job, channel: nat, level: nat, previous: seq<TileInfo>): map<string, seq<int>>
    requires ValidJob(job) && Dims(job) == 3 && level >= 1
  {
    StepsValid(job, channel, level, false);
    var cells := job.env.divideSpace(job.env.boundaries(previous), XyUpscaled(job.scaling, level));
    PartitionFits(job, job.env.boundaries(previous), XyUpscaled(job.scaling, level), XyStep(job, channel, level));
    WrittenImages(cells, previous, XyStep(job, channel, level), job.env)
  }

  /** Building the XY-only tier writes an image at exactly its cells' paths. */
  lemma XyTierImagesKeys(job: Job, channel: nat, level: nat, previous: seq<TileInfo>)
    requires ValidJob(job) && Dims(job) == 3 && level >= 1
    ensures XyTierImages(job, channel, level, previous).Keys == PathsOf(XyTierCells(job, channel, level, previous))
  {
    StepsValid(job, channel, level, false);
    var cells := job.env.divideSpace(job.env.boundaries(previous), XyUpscaled(job.scaling, level));
    PartitionFits(job, job.env.boundaries(previous), XyUpscaled(job.scaling, level), XyStep(job, channel, level));
    WrittenImagesKeys(cells, previous, XyStep(job, channel, level), job.env);
  }

  /** Lines 147-241: load the level's XY-only tier if it is stored, otherwise
      build it from the last tier; either way it is saved again. */
  method BuildXyTier(store: TierStore, job: Job, channel: nat, level: nat, lastTmp: Option<Tier>)
    returns (r: Result<seq<TileInfo>, FusionError>)
    requires ValidJob(job) && Dims(job) == 3 && level >= 1
    modifies store
    ensures var xyTier := XyConfig(channel, level);
      && (xyTier in old(store.configs) ==> r == Ok(old(store.configs)[xyTier]))
      && ((xyTier !in old(store.configs) && (lastTmp.None? || lastTmp.value !in old(store.configs)))
            ==> r == Err(MissingConfiguration(lastTmp)))
      && ((xyTier !in old(store.configs) && lastTmp.Some? && lastTmp.value in old(store.configs))
            ==> r == Ok(XyTierCells(job, channel, level, old(store.configs)[lastTmp.value])))
    ensures r.Ok? ==> store.configs == old(store.configs)[XyConfig(channel, level) := r.value]
    ensures r.Err? ==> store.configs == old(store.configs)
    ensures store.images == if XyConfig(channel, level) !in old(store.configs) && lastTmp.Some? && lastTmp.value in old(store.configs)
      then old(store.images) + XyTierImages(job, channel, level, old(store.configs)[lastTmp.value])
      else old(store.images)
  {
    var xyTier := XyConfig(channel, level);
    var smaller;
    if xyTier in store.configs {
      smaller := store.configs[xyTier];
    } else {
      if lastTmp.None? || lastTmp.value !in store.configs {
        return Err(MissingConfiguration(lastTmp));
      }
      var lastLevelTmpCells := store.configs[lastTmp.value];
      var upscaledTmpCellSize := XyUpscaled(job.scaling, level);
      var tmpSpace := job.env.boundaries(lastLevelTmpCells);
      var tmpNewCells := job.env.divideSpace(tmpSpace, upscaledTmpCellSize);
      var step := XyStep(job, channel, level);
      StepsValid(job, channel, level, false);
      PartitionFits(job, tmpSpace, upscaledTmpCellSize, step);
      smaller := FuseTier(store, tmpNewCells, lastLevelTmpCells, step, job.env);
    }
    store.Save(xyTier, smaller);
    r := Ok(smaller);
  }

  datatype LevelOutcome = EmptyLevel | LevelCells(cells: seq<TileInfo>, tmp: Tier)

  /** The cells of a level's main tier built from `source`. */
  function MainTierCells(job: Job, channel: nat, level: nat, xy: bool, source: seq<TileInfo>): seq<TileInfo>
    requires ValidJob(job)
  {
    StepsValid(job, channel, level, xy);
    var upscaled := MainUpscaled(job.scaling, level, xy);
    PartitionFits(job, job.env.boundaries(source), upscaled, MainStep(job, channel, level, xy));
    KeptCells(job.env.divideSpace(job.env.boundaries(source), upscaled), source, MainStep(job, channel, level, xy), job.env)
  }

  /** The cell images written while building a level's main tier from `source`. */
  function MainTierImages(job: Job, channel: nat, level: nat, xy: bool, source: seq<TileInfo>): map<string, seq<int>>
    requires ValidJob(job)
  {
    StepsValid(job, channel, level, xy);
    var upscaled := MainUpscaled(job.scaling, level, xy);
    PartitionFits(job, job.env.boundaries(source), upscaled, MainStep(job, channel, level, xy));
    WrittenImages(job.env.divideSpace(job.env.boundaries(source), upscaled), source, MainStep(job, channel, level, xy), job.env)
  }

  /** Building a level's main tier writes an image at exactly its cells' paths. */
  lemma MainTierImagesKeys(job: Job, channel: nat, level: nat, xy: bool, source: seq<TileInfo>)
    requires ValidJob(job)
    ensures MainTierImages(job, channel, level, xy, source).Keys == PathsOf(MainTierCells(job, channel, level, xy, source))
  {
    StepsValid(job, channel, level, xy);
    var upscaled := MainUpscaled(job.scaling, level, xy);
    PartitionFits(job, job.env.boundaries(source), upscaled, MainStep(job, channel, level, xy));
    WrittenImagesKeys(job.env.divideSpace(job.env.boundaries(source), upscaled), source, MainStep(job, channel, level, xy), job.env);
  }

  /** Every cell of a three-dimensional level is written where the channel's
      export template, filled with the level and the cell's grid indexes,
      points: the files the run writes are the ones the metadata advertises. */
  lemma LevelCellsFollowExportTemplate(job: Job, channel: nat, level: nat, xy: bool, source: seq<TileInfo>, k: TileInfo)
    requires ValidJob(job) && Dims(job) == 3
    requires k in MainTierCells(job, channel, level, xy, source)
    ensures ArgsWithin(ExportTemplate(ChannelFolder(job, channel)), 4)
    ensures exists idx: seq<int> ::
              |idx| == 3 && k.filePath == Format(ExportTemplate(ChannelFolder(job, channel)), [level, idx[0], idx[1], idx[2]])
  {
    var t := MainStep(job, channel, level, xy);
    var upscaled := MainUpscaled(job.scaling, level, xy);
    var cells := job.env.divideSpace(job.env.boundaries(source), upscaled);
    StepsValid(job, channel, level, xy);
    PartitionFits(job, job.env.boundaries(source), upscaled, t);
    KeptCellsMembers(cells, source, t, job.env);
    var i :| 0 <= i < |cells| && Fused(cells[i], source, t, job.env) == Some(k);
    FuseCellSpec(cells[i], job.env.tilesWithin(source, cells[i]), t);
    var idx := CellIndices(cells[i].position, t);
    CellPathFollowsExportTemplate(ChannelFolder(job, channel), level, idx);
  }

  /** The XY-only tier halves the in-plane axes and the main tier after it
      only moves Z, so together they downsample by the level's step factors. */
  lemma TiersComposeToStep(s: Scaling, level: nat)
    requires |s.singleCellSize| == 3 && level >= 1
    ensures forall d :: 0 <= d < 3 ==> XY_FACTORS[d] * MainFactors(s, level, true)[d] == StepFactors(s, level)[d]
    ensures forall d :: 0 <= d < 3 ==> MainUpscaled(s, level, true)[d] == MainFactors(s, level, true)[d] * CellSizes(s, level)[d]
  {
    LevelFactors(s, level);
  }

  /** Lines 250-319: cut the bounding box of `source` into cells of the
      upscaled size and fuse them into the level's main tier. */
  method FuseMainTier(store: TierStore, job: Job, channel: nat, level: nat, xy: bool, source: seq<TileInfo>,
                      down: array<int>, cellSize: array<int>, upscaled: array<int>)
    returns (output: seq<TileInfo>)
    requires ValidJob(job)
    requires down[..] == MainFactors(job.scaling, level, xy) && cellSize[..] == CellSizes(job.scaling, level)
    requires upscaled[..] == MainUpscaled(job.scaling, level, xy)
    modifies store
    ensures output == MainTierCells(job, channel, level, xy, source)
    ensures store.configs == old(store.configs)
    ensures store.images == old(store.images) + MainTierImages(job, channel, level, xy, source)
  {
    var space := job.env.boundaries(source);
    var step := TierStep(down[..], cellSize[..], LevelFolder(ChannelFolder(job, channel), level), level != 0, channel);
    var newLevelCells := job.env.divideSpace(space, upscaled[..]);
    StepsValid(job, channel, level, xy);
    PartitionFits(job, space, upscaled[..], step);
    output := FuseTier(store, newLevelCells, source, step, job.env);
  }

  /** The cell images one level of the loop writes, given the configurations
      stored when it starts: none for a resumed level or a missing tier;
      otherwise the main tier's, after the XY-only tier's when that is built. */
  function LevelImages(job: Job, channel: nat, level: nat, lastCells: seq<TileInfo>, lastTmp: Option<Tier>,
                       configs: map<Tier, seq<TileInfo>>): map<string, seq<int>>
    requires ValidJob(job)
  {
    NoXyTierAtLevelZero(job.scaling);
    var xy := UsesXyTier(StepFactors(job.scaling, level), Dims(job));
    if LevelConfig(channel, level) in configs then map[]
    else if !xy then MainTierImages(job, channel, level, false, lastCells)
    else if XyConfig(channel, level) in configs then MainTierImages(job, channel, level, true, configs[XyConfig(channel, level)])
    else if lastTmp.None? || lastTmp.value !in configs then map[]
    else
      var previous := configs[lastTmp.value];
      XyTierImages(job, channel, level, previous) + MainTierImages(job, channel, level, true, XyTierCells(job, channel, level, previous))
  }

  /** Merging in two steps is merging once with the two merged. */
  lemma MergeTwice(m: map<string, seq<int>>, a: map<string, seq<int>>, b: map<string, seq<int>>)
    ensures (m + a) + b == m + (a + b) && m + map[] == m
  {
  }

  /** Lines 111-341, one level of the do-while loop: resume the level if its
      configuration is stored, or else build it (through the XY-only tier
      when the Z factor has moved on) and store it unless it is empty. */
  method ProcessLevel(store: TierStore, job: Job, channel: nat, level: nat, lastCells: seq<TileInfo>, lastTmp: Option<Tier>,
                      down: array<int>, cellSize: array<int>, upscaled: array<int>)
    returns (r: Result<LevelOutcome, FusionError>)
    requires ValidJob(job)
    requires down != cellSize && down != upscaled && cellSize != upscaled
    requires down[..] == StepFactors(job.scaling, level) && cellSize[..] == CellSizes(job.scaling, level)
    requires upscaled[..] == UpscaledSizes(job.scaling, level)
    modifies store, down, upscaled
    ensures Extends(store.configs, old(store.configs))
    ensures store.configs.Keys <= old(store.configs).Keys + {LevelConfig(channel, level), XyConfig(channel, level)}
    ensures !UsesXyTier(StepFactors(job.scaling, level), Dims(job)) ==>
      store.configs.Keys <= old(store.configs).Keys + {LevelConfig(channel, level)}
    ensures var config := LevelConfig(channel, level);
      config in old(store.configs) ==>
        && store.configs == old(store.configs)
        && r == Ok(LevelCells(old(store.configs)[config],
                              if ResumesFromXy(StepFactors(job.scaling, level), Dims(job)) then XyConfig(channel, level) else config))
    ensures var config, xy := LevelConfig(channel, level), UsesXyTier(StepFactors(job.scaling, level), Dims(job));
      r.Err? <==> (config !in old(store.configs) && xy && XyConfig(channel, level) !in old(store.configs)
                   && (lastTmp.None? || lastTmp.value !in old(store.configs)))
    ensures r.Err? ==> r.error == MissingConfiguration(lastTmp)
    ensures var config, xy := LevelConfig(channel, level), UsesXyTier(StepFactors(job.scaling, level), Dims(job));
      config !in old(store.configs) && r.Ok? ==>
        && (xy ==> level >= 1 && Dims(job) == 3 && XyConfig(channel, level) in store.configs)
        && (xy && XyConfig(channel, level) !in old(store.configs) ==>
              lastTmp.Some? && lastTmp.value in old(store.configs)
              && store.configs[XyConfig(channel, level)] == XyTierCells(job, channel, level, old(store.configs)[lastTmp.value]))
        && var source := if xy then store.configs[XyConfig(channel, level)] else lastCells;
           var kept := MainTierCells(job, channel, level, xy, source);
           && (r.value.EmptyLevel? <==> |kept| == 0)
           && (r.value.EmptyLevel? ==> config !in store.configs)
           && (r.value.LevelCells? ==>
                 r.value.cells == kept && config in store.configs && store.configs[config] == kept
                 && r.value.tmp == if xy then XyConfig(channel, level) else config)
    ensures store.images == old(store.images) + LevelImages(job, channel, level, lastCells, lastTmp, old(store.configs))
  {
    var n := Dims(job);
    var config := LevelConfig(channel, level);
    ghost var images0, configs0 := store.images, store.configs;
    MergeTwice(images0, map[], map[]);
    if config in store.configs {
      var cells := store.configs[config];
      var tmp := if ResumesFromXy(down[..], n) then XyConfig(channel, level) else config;
      return Ok(LevelCells(cells, tmp));
    }
    var xy := UsesXyTier(down[..], n);
    var smallerCells, currLevelTmpPath;
    if !xy {
      currLevelTmpPath := config;
      smallerCells := lastCells;
    } else {
      currLevelTmpPath := XyConfig(channel, level);
      NoXyTierAtLevelZero(job.scaling);
      var built := BuildXyTier(store, job, channel, level, lastTmp);
      if built.Err? {
        return Err(built.error);
      }
      smallerCells := built.value;
      if XyConfig(channel, level) !in configs0 {
        MergeTwice(images0, XyTierImages(job, channel, level, configs0[lastTmp.value]),
                   MainTierImages(job, channel, level, true, smallerCells));
      }
      LevelFactors(job.scaling, level);
      ResetXy(down, upscaled, cellSize);
    }
    assert down[..] == MainFactors(job.scaling, level, xy);
    assert upscaled[..] == MainUpscaled(job.scaling, level, xy);
    var output := FuseMainTier(store, job, channel, level, xy, smallerCells, down, cellSize, upscaled);
    if |output| == 0 {
      return Ok(EmptyLevel);
    }
    store.Save(config, output);
    r := Ok(LevelCells(output, currLevelTmpPath));
  }

  /** `Intervals.dimensionsAsLongArray` / `getDimensions()` of a box. */
  function Dimensions(b: Box): (dims: seq<int>)
    requires WellFormedBox(b)
    ensures |dims| == |b.min|
  {
    seq(|b.min|, d requires 0 <= d < |b.min| => Dimension(b, d))
  }

  /** The loop condition at line 359, evaluated on the bounding box of a level's cells. */
  predicate LevelContinues(job: Job, cells: seq<TileInfo>)
    requires ValidJob(job)
  {
    var dims := Dimensions(job.env.boundaries(cells));
    Continues(MinDimension(dims), MaxDimension(dims), job.scaling.fusionCellSize)
  }

  /** `CellFileImageMetaData`: the path template, the full-resolution
      dimensions, and per level the full downsampling factors and cell size. */
  datatype Export = Export(template: string, dimensions: seq<int>, factors: map<nat, seq<int>>, cellSizes: map<nat, seq<int>>)

  /** Why the level loop ended: an empty level (`break`), a level too small
      to go on (with its extremes), or the bound on the number of levels. */
  datatype StopReason = EmptyLevelReached | SmallEnough(minDimension: int, maxDimension: int) | LevelLimit

  datatype ChannelResult = ChannelResult(metadata: Export, levels: nat, stop: StopReason)

  /** The export maps hold exactly the levels `0 .. levels - 1`, each with
      its full factors and its cell size. */
  ghost predicate Recorded(factors: map<nat, seq<int>>, cellSizes: map<nat, seq<int>>, s: Scaling, levels: nat) {
    && (forall L: nat :: L in factors <==> L < levels)
    && (forall L: nat :: L in cellSizes <==> L < levels)
    && forall L: nat :: L < levels ==> factors[L] == FullFactors(s, L) && cellSizes[L] == CellSizes(s, L)
  }

  /** Every configuration not stored at the start is a tier of this
      channel below `level`. */
  predicate OnlyChannelTiers(configs: map<Tier, seq<TileInfo>>, start: map<Tier, seq<TileInfo>>, channel: nat, level: nat) {
    forall t :: t in configs && t !in start ==> t.channel == channel && t.level < level
  }

  /** The levels `0 .. level - 1` of the channel are stored and every
      configuration stored at the start is kept. */
  predicate LevelsStored(configs: map<Tier, seq<TileInfo>>, start: map<Tier, seq<TileInfo>>, channel: nat, level: nat) {
    && Extends(configs, start)
    && forall L: nat :: L < level ==> LevelConfig(channel, L) in configs
  }

  lemma RecordedNext(factors: map<nat, seq<int>>, sizes: map<nat, seq<int>>, s: Scaling, level: nat)
    requires Recorded(factors, sizes, s, level)
    ensures Recorded(factors[level := FullFactors(s, level)], sizes[level := CellSizes(s, level)], s, level + 1)
  {
  }

  /** What holds of a channel's run after `level` levels: the export maps
      record them, they are built, only this channel's tiers were added, and
      `lastCells` holds the last level's cells. */
  ghost predicate Progress(configs: map<Tier, seq<TileInfo>>, start: map<Tier, seq<TileInfo>>, job: Job, channel: nat,
                           tiles: seq<TileInfo>, level: nat, lastCells: seq<TileInfo>,
                           factors: map<nat, seq<int>>, sizes: map<nat, seq<int>>)
    requires ValidJob(job)
  {
    && Recorded(factors, sizes, job.scaling, level)
    && LevelsStored(configs, start, channel, level)
    && OnlyChannelTiers(configs, start, channel, level)
    && (level == 0 ==> lastCells == tiles)
    && (level >= 1 ==> lastCells == configs[LevelConfig(channel, level - 1)])
  }

  /** Storing at most the level's two tiers keeps the earlier levels and
      adds only tiers of this channel up to this level. */
  lemma LevelTiersAdded(configs: map<Tier, seq<TileInfo>>, configs': map<Tier, seq<TileInfo>>,
                        start: map<Tier, seq<TileInfo>>, channel: nat, level: nat)
    requires LevelsStored(configs, start, channel, level) && OnlyChannelTiers(configs, start, channel, level)
    requires Extends(configs', configs)
    requires configs'.Keys <= configs.Keys + {LevelConfig(channel, level), XyConfig(channel, level)}
    ensures LevelsStored(configs', start, channel, level) && OnlyChannelTiers(configs', start, channel, level + 1)
  {
  }

  /** When processing a level fails: neither the level nor its XY-only tier
      is stored, the level needs that tier, and the last tier it would be
      built from is not stored either. */
  predicate LevelFails(configs: map<Tier, seq<TileInfo>>, job: Job, channel: nat, level: nat, lastTmp: Option<Tier>)
    requires ValidJob(job)
  {
    && LevelConfig(channel, level) !in configs
    && UsesXyTier(StepFactors(job.scaling, level), Dims(job))
    && XyConfig(channel, level) !in configs
    && (lastTmp.None? || lastTmp.value !in configs)
  }

  /** The store holds no tier of the channel. */
  predicate NoTiersOf(configs: map<Tier, seq<TileInfo>>, channel: nat) {
    forall t :: t in configs ==> t.channel != channel
  }

  /** One pass of the do-while body up to the extent test: set up the level's
      factors, process the level, and record its factors and cell size. */
  method AdvanceLevel(store: TierStore, ghost start: map<Tier, seq<TileInfo>>, job: Job, channel: nat, tiles: seq<TileInfo>,
                      level: nat, lastCells: seq<TileInfo>, lastTmp: Option<Tier>,
                      factors: map<nat, seq<int>>, sizes: map<nat, seq<int>>)
    returns (outcome: Result<LevelOutcome, FusionError>, factors': map<nat, seq<int>>, sizes': map<nat, seq<int>>)
    requires ValidJob(job)
    requires Progress(store.configs, start, job, channel, tiles, level, lastCells, factors, sizes)
    modifies store
    ensures Extends(store.configs, old(store.configs))
    ensures OnlyChannelTiers(store.configs, start, channel, level + 1)
    ensures outcome.Err? <==> LevelFails(old(store.configs), job, channel, level, lastTmp)
    ensures outcome.Err? ==> outcome.error == MissingConfiguration(lastTmp)
    ensures outcome.Ok? && outcome.value.LevelCells? && LevelConfig(channel, level) !in old(store.configs) ==>
      outcome.value.tmp in store.configs
    ensures outcome.Ok? && outcome.value.EmptyLevel? ==>
      && factors' == factors && sizes' == sizes
      && LevelsStored(store.configs, start, channel, level)
      && LevelConfig(channel, level) !in store.configs
    ensures outcome.Ok? && outcome.value.LevelCells? ==>
      Progress(store.configs, start, job, channel, tiles, level + 1, outcome.value.cells, factors', sizes')
  {
    var full, down, cellSize, upscaled := LevelGeometry(job.scaling, level);
    var fullFactors, levelCellSize := full[..], cellSize[..];
    ghost var before := store.configs;
    outcome := ProcessLevel(store, job, channel, level, lastCells, lastTmp, down, cellSize, upscaled);
    LevelTiersAdded(before, store.configs, start, channel, level);
    factors', sizes' := factors, sizes;
    if outcome.Err? {
      return;
    }
    if outcome.value.EmptyLevel? {
      return;
    }
    RecordedNext(factors, sizes, job.scaling, level);
    factors' := factors[level := fullFactors];
    sizes' := sizes[level := levelCellSize];
  }

  /** The first `count` levels of the channel are stored and each passed the
      extent test. */
  predicate AllContinue(configs: map<Tier, seq<TileInfo>>, job: Job, channel: nat, count: nat)
    requires ValidJob(job)
  {
    forall L: nat :: L < count ==> LevelConfig(channel, L) in configs && LevelContinues(job, configs[LevelConfig(channel, L)])
  }

  lemma AllContinueKept(configs: map<Tier, seq<TileInfo>>, before: map<Tier, seq<TileInfo>>, job: Job, channel: nat, count: nat)
    requires ValidJob(job) && AllContinue(before, job, channel, count) && Extends(configs, before)
    ensures AllContinue(configs, job, channel, count)
  {
  }

  /** A stored level whose extent is not yet small enough extends the levels
      that passed the test. */
  lemma ContinueNext(configs: map<Tier, seq<TileInfo>>, job: Job, channel: nat, level: nat, cells: seq<TileInfo>,
                     minDimension: int, maxDimension: int)
    requires ValidJob(job) && AllContinue(configs, job, channel, level)
    requires LevelConfig(channel, level) in configs && configs[LevelConfig(channel, level)] == cells
    requires var dims := Dimensions(job.env.boundaries(cells));
      minDimension == MinDimension(dims) && maxDimension == MaxDimension(dims)
    requires Continues(minDimension, maxDimension, job.scaling.fusionCellSize)
    ensures AllContinue(configs, job, channel, level + 1)
  {
    assert LevelContinues(job, cells);
  }

  /** The levels that passed the extent test: all of them, except the last
      one when the loop stopped because it was small enough. */
  function Continued(res: ChannelResult): nat {
    if res.stop.SmallEnough? && res.levels >= 1 then res.levels - 1 else res.levels
  }

  /** What a channel's run promises when it ends without an error: at most
      `maxLevels` levels; the channel's export template and full-resolution
      dimensions; the factors and cell sizes of every level built; those
      levels stored (and nothing stored before dropped); every level that did
      not end the loop passed the extent test; and the reason the loop
      stopped: an empty level, which is not stored, a last level small enough
      on every axis, or the level bound. */
  ghost predicate ChannelDone(configs: map<Tier, seq<TileInfo>>, start: map<Tier, seq<TileInfo>>, job: Job, channel: nat,
                              tiles: seq<TileInfo>, maxLevels: nat, res: ChannelResult)
    requires ValidJob(job)
  {
    && res.levels <= maxLevels
    && res.metadata.template == ExportTemplateString(ChannelFolder(job, channel))
    && res.metadata.dimensions == Dimensions(job.env.boundaries(tiles))
    && Recorded(res.metadata.factors, res.metadata.cellSizes, job.scaling, res.levels)
    && LevelsStored(configs, start, channel, res.levels)
    && AllContinue(configs, job, channel, Continued(res))
    && (res.stop.SmallEnough? ==>
          && res.levels >= 1
          && LevelConfig(channel, res.levels - 1) in configs
          && var dims := Dimensions(job.env.boundaries(configs[LevelConfig(channel, res.levels - 1)]));
             && res.stop.minDimension == MinDimension(dims) && res.stop.maxDimension == MaxDimension(dims)
             && !Continues(res.stop.minDimension, res.stop.maxDimension, job.scaling.fusionCellSize))
    && (res.stop.EmptyLevelReached? ==> res.levels < maxLevels && LevelConfig(channel, res.levels) !in configs)
    && (res.stop.LevelLimit? ==> res.levels == maxLevels)
  }

  /** The export metadata of a channel after `level` levels. */
  ghost predicate MetadataAt(e: Export, job: Job, channel: nat, tiles: seq<TileInfo>, level: nat)
    requires ValidJob(job)
  {
    && e.template == ExportTemplateString(ChannelFolder(job, channel))
    && e.dimensions == Dimensions(job.env.boundaries(tiles))
    && Recorded(e.factors, e.cellSizes, job.scaling, level)
  }

  /** The loop stops at an empty level, which is not stored. */
  lemma EmptyLevelDone(configs: map<Tier, seq<TileInfo>>, start: map<Tier, seq<TileInfo>>, job: Job, channel: nat,
                       tiles: seq<TileInfo>, maxLevels: nat, e: Export, level: nat)
    requires ValidJob(job) && MetadataAt(e, job, channel, tiles, level) && level < maxLevels
    requires LevelsStored(configs, start, channel, level) && AllContinue(configs, job, channel, level)
    requires LevelConfig(channel, level) !in configs
    ensures ChannelDone(configs, start, job, channel, tiles, maxLevels, ChannelResult(e, level, EmptyLevelReached))
  {
  }

  /** The loop stops after the level `level - 1`, whose extent is small enough. */
  lemma SmallEnoughDone(configs: map<Tier, seq<TileInfo>>, start: map<Tier, seq<TileInfo>>, job: Job, channel: nat,
                        tiles: seq<TileInfo>, maxLevels: nat, e: Export, level: nat, minDimension: int, maxDimension: int)
    requires ValidJob(job) && MetadataAt(e, job, channel, tiles, level) && 1 <= level <= maxLevels
    requires LevelsStored(configs, start, channel, level) && AllContinue(configs, job, channel, level - 1)
    requires LevelConfig(channel, level - 1) in configs
    requires var dims := Dimensions(job.env.boundaries(configs[LevelConfig(channel, level - 1)]));
      minDimension == MinDimension(dims) && maxDimension == MaxDimension(dims)
    requires !Continues(minDimension, maxDimension, job.scaling.fusionCellSize)
    ensures ChannelDone(configs, start, job, channel, tiles, maxLevels,
                        ChannelResult(e, level, SmallEnough(minDimension, maxDimension)))
  {
  }

  /** The loop stops at the level bound. */
  lemma LevelLimitDone(configs: map<Tier, seq<TileInfo>>, start: map<Tier, seq<TileInfo>>, job: Job, channel: nat,
                       tiles: seq<TileInfo>, maxLevels: nat, e: Export)
    requires ValidJob(job) && MetadataAt(e, job, channel, tiles, maxLevels)
    requires LevelsStored(configs, start, channel, maxLevels) && AllContinue(configs, job, channel, maxLevels)
    ensures ChannelDone(configs, start, job, channel, tiles, maxLevels, ChannelResult(e, maxLevels, LevelLimit))
  {
  }

  /** The outcome of one pass of the do-while body: the loop stops with the
      channel's result, or goes on with the level's cells and temporary
      configuration and the updated export maps. */
  datatype LevelStep =
    | Stopped(res: ChannelResult)
    | Next(cells: seq<TileInfo>, tmp: Tier, factors: map<nat, seq<int>>, sizes: map<nat, seq<int>>)

  /** Lines 89-361, one pass of the do-while body for `level`: process the
      level, record its factors, and decide with the extent test whether the
      loop goes on. */
  method ChannelLevel(store: TierStore, ghost start: map<Tier, seq<TileInfo>>, job: Job, channel: nat, tiles: seq<TileInfo>,
                      maxLevels: nat, template: string, dimensions: seq<int>, level: nat, lastCells: seq<TileInfo>,
                      lastTmp: Option<Tier>, factors: map<nat, seq<int>>, sizes: map<nat, seq<int>>)
    returns (r: Result<LevelStep, FusionError>)
    requires ValidJob(job) && level < maxLevels
    requires template == ExportTemplateString(ChannelFolder(job, channel)) && dimensions == Dimensions(job.env.boundaries(tiles))
    requires Progress(store.configs, start, job, channel, tiles, level, lastCells, factors, sizes)
    requires AllContinue(store.configs, job, channel, level)
    modifies store
    ensures Extends(store.configs, old(store.configs))
    ensures OnlyChannelTiers(store.configs, start, channel, level + 1)
    ensures r.Err? <==> LevelFails(old(store.configs), job, channel, level, lastTmp)
    ensures r.Err? ==> r.error == MissingConfiguration(lastTmp)
    ensures r.Ok? && r.value.Next? && LevelConfig(channel, level) !in old(store.configs) ==> r.value.tmp in store.configs
    ensures r.Ok? && r.value.Stopped? ==> ChannelDone(store.configs, start, job, channel, tiles, maxLevels, r.value.res)
    ensures r.Ok? && r.value.Next? ==>
      && Progress(store.configs, start, job, channel, tiles, level + 1, r.value.cells, r.value.factors, r.value.sizes)
      && AllContinue(store.configs, job, channel, level + 1)
  {
    ghost var before := store.configs;
    var outcome, factors', sizes' := AdvanceLevel(store, start, job, channel, tiles, level, lastCells, lastTmp, factors, sizes);
    if outcome.Err? {
      return Err(outcome.error);
    }
    AllContinueKept(store.configs, before, job, channel, level);
    var step := DecideLevel(store.configs, start, job, channel, tiles, maxLevels, template, dimensions,
                            level, outcome.value, factors', sizes');
    r := Ok(step);
  }

  /** Lines 343-361: after an empty level the loop stops; otherwise the
      extremes of the level's extent decide whether it goes on. */
  method DecideLevel(ghost configs: map<Tier, seq<TileInfo>>, ghost start: map<Tier, seq<TileInfo>>, job: Job, channel: nat,
                     tiles: seq<TileInfo>, maxLevels: nat, template: string, dimensions: seq<int>, level: nat,
                     outcome: LevelOutcome, factors: map<nat, seq<int>>, sizes: map<nat, seq<int>>)
    returns (step: LevelStep)
    requires ValidJob(job) && level < maxLevels
    requires template == ExportTemplateString(ChannelFolder(job, channel)) && dimensions == Dimensions(job.env.boundaries(tiles))
    requires AllContinue(configs, job, channel, level)
    requires outcome.EmptyLevel? ==>
      && Recorded(factors, sizes, job.scaling, level)
      && LevelsStored(configs, start, channel, level)
      && LevelConfig(channel, level) !in configs
    requires outcome.LevelCells? ==> Progress(configs, start, job, channel, tiles, level + 1, outcome.cells, factors, sizes)
    ensures step.Stopped? ==> ChannelDone(configs, start, job, channel, tiles, maxLevels, step.res)
    ensures step.Next? ==>
      && outcome.LevelCells?
      && step == Next(outcome.cells, outcome.tmp, factors, sizes)
      && AllContinue(configs, job, channel, level + 1)
  {
    var metadata := Export(template, dimensions, factors, sizes);
    if outcome.EmptyLevel? {
      EmptyLevelDone(configs, start, job, channel, tiles, maxLevels, metadata, level);
      return Stopped(ChannelResult(metadata, level, EmptyLevelReached));
    }
    var minDimension, maxDimension := Extremes(Dimensions(job.env.boundaries(outcome.cells)));
    if Continues(minDimension, maxDimension, job.scaling.fusionCellSize) {
      ContinueNext(configs, job, channel, level, outcome.cells, minDimension, maxDimension);
      step := Next(outcome.cells, outcome.tmp, factors, sizes);
    } else {
      SmallEnoughDone(configs, start, job, channel, tiles, maxLevels, metadata, level + 1, minDimension, maxDimension);
      step := Stopped(ChannelResult(metadata, level + 1, SmallEnough(minDimension, maxDimension)));
    }
  }

  /** Lines 84-375, the do-while loop over the levels of one channel, run for
      at most `maxLevels` levels. */
  method RunChannel(store: TierStore, job: Job, channel: nat, tiles: seq<TileInfo>, maxLevels: nat)
    returns (r: Result<ChannelResult, FusionError>)
    requires ValidJob(job) && maxLevels >= 1
    modifies store
    ensures Extends(store.configs, old(store.configs))
    ensures OnlyChannelTiers(store.configs, old(store.configs), channel, maxLevels)
    ensures r.Ok? ==> ChannelDone(store.configs, old(store.configs), job, channel, tiles, maxLevels, r.value)
    ensures NoTiersOf(old(store.configs), channel) ==> r.Ok?
  {
    var baseOutputFolder := ChannelFolder(job, channel);
    var template := baseOutputFolder + "/%1$d/%4$d/%3$d/%2$d.tif";
    var dimensions := Dimensions(job.env.boundaries(tiles));
    var level: nat := 0;
    var lastTmp: Option<Tier> := None;
    var lastCells := tiles;
    var factors: map<nat, seq<int>> := map[];
    var sizes: map<nat, seq<int>> := map[];
    while level < maxLevels
      invariant level <= maxLevels
      invariant Progress(store.configs, old(store.configs), job, channel, tiles, level, lastCells, factors, sizes)
      invariant AllContinue(store.configs, job, channel, level)
      invariant NoTiersOf(old(store.configs), channel) ==>
        if level == 0 then lastTmp.None? else lastTmp.Some? && lastTmp.value in store.configs
      decreases maxLevels - level
    {
      if NoTiersOf(old(store.configs), channel) {
        FreshLevelSucceeds(store.configs, old(store.configs), job, channel, level, lastTmp);
      }
      var step := ChannelLevel(store, old(store.configs), job, channel, tiles, maxLevels, template, dimensions,
                               level, lastCells, lastTmp, factors, sizes);
      if step.Err? {
        return Err(step.error);
      }
      if step.value.Stopped? {
        return Ok(step.value.res);
      }
      lastCells, lastTmp, factors, sizes := step.value.cells, Some(step.value.tmp), step.value.factors, step.value.sizes;
      level := level + 1;
    }
    LevelLimitDone(store.configs, old(store.configs), job, channel, tiles, maxLevels, Export(template, dimensions, factors, sizes));
    r := Ok(ChannelResult(Export(template, dimensions, factors, sizes), level, LevelLimit));
  }

  /** On a store that held none of the channel's tiers, a level is never
      stored before it is processed, and it does not fail: level 0 needs no
      XY-only tier, and every later level finds the tier its predecessor
      stored. */
  lemma FreshLevelSucceeds(configs: map<Tier, seq<TileInfo>>, start: map<Tier, seq<TileInfo>>, job: Job,
                           channel: nat, level: nat, lastTmp: Option<Tier>)
    requires ValidJob(job) && NoTiersOf(start, channel) && OnlyChannelTiers(configs, start, channel, level)
    requires if level == 0 then lastTmp.None? else lastTmp.Some? && lastTmp.value in configs
    ensures LevelConfig(channel, level) !in configs
    ensures !LevelFails(configs, job, channel, level, lastTmp)
  {
    if level == 0 {
      NoXyTierAtLevelZero(job.scaling);
    }
  }

  /** A channel's result stays true while later channels add tiers of their
      own to the store. */
  lemma ChannelDoneKept(configs: map<Tier, seq<TileInfo>>, configs': map<Tier, seq<TileInfo>>,
                        start: map<Tier, seq<TileInfo>>, start': map<Tier, seq<TileInfo>>,
                        job: Job, channel: nat, tiles: seq<TileInfo>, maxLevels: nat, res: ChannelResult)
    requires ValidJob(job) && ChannelDone(configs, start, job, channel, tiles, maxLevels, res)
    requires Extends(configs', configs) && Extends(start, start')
    requires forall t :: t in configs' && t !in configs ==> t.channel != channel
    ensures ChannelDone(configs', start', job, channel, tiles, maxLevels, res)
  {
    AllContinueKept(configs', configs, job, channel, Continued(res));
  }

  /** Lines 79-382: the channels one after the other, with the export
      metadata of each; the first failure ends the run.  `results` are the
      channels' runs, of which the exports are the metadata. */
  /** Every tier added since `start` belongs to a channel below `ch`. */
  predicate ChannelsBelow(configs: map<Tier, seq<TileInfo>>, start: map<Tier, seq<TileInfo>>, ch: nat) {
    forall t :: t in configs && t !in start ==> t.channel < ch
  }

  /** Channels run before `ch` leave a store without tiers of `ch` without them. */
  lemma FreshChannel(configs: map<Tier, seq<TileInfo>>, start: map<Tier, seq<TileInfo>>, ch: nat)
    requires NoTiersOf(start, ch) && ChannelsBelow(configs, start, ch)
    ensures NoTiersOf(configs, ch)
  {
  }

  /** Running channel `ch` adds only its own tiers. */
  lemma ChannelsBelowGrow(configs: map<Tier, seq<TileInfo>>, before: map<Tier, seq<TileInfo>>,
                          start: map<Tier, seq<TileInfo>>, ch: nat, maxLevels: nat)
    requires ChannelsBelow(before, start, ch) && OnlyChannelTiers(configs, before, ch, maxLevels)
    ensures ChannelsBelow(configs, start, ch + 1)
  {
  }

  method Run(store: TierStore, job: Job, channels: seq<seq<TileInfo>>, maxLevels: nat)
    returns (r: Result<seq<Export>, FusionError>, ghost results: seq<ChannelResult>)
    requires ValidJob(job) && maxLevels >= 1
    modifies store
    ensures Extends(store.configs, old(store.configs))
    ensures r.Ok? ==>
      && |r.value| == |channels| == |results|
      && forall ch :: 0 <= ch < |channels| ==>
           && r.value[ch] == results[ch].metadata
           && ChannelDone(store.configs, old(store.configs), job, ch, channels[ch], maxLevels, results[ch])
    ensures (forall ch :: 0 <= ch < |channels| ==> NoTiersOf(old(store.configs), ch)) ==> r.Ok?
  {
    var exports: seq<Export> := [];
    results := [];
    for ch := 0 to |channels|
      invariant |exports| == |results| == ch
      invariant Extends(store.configs, old(store.configs))
      invariant forall c :: 0 <= c < ch ==>
        && exports[c] == results[c].metadata
        && ChannelDone(store.configs, old(store.configs), job, c, channels[c], maxLevels, results[c])
      invariant ChannelsBelow(store.configs, old(store.configs), ch)
    {
      ghost var before := store.configs;
      if forall c :: 0 <= c < |channels| ==> NoTiersOf(old(store.configs), c) {
        FreshChannel(before, old(store.configs), ch);
      }
      var result := RunChannel(store, job, ch, channels[ch], maxLevels);
      if result.Err? {
        return Err(result.error), results;
      }
      ChannelsBelowGrow(store.configs, before, old(store.configs), ch, maxLevels);
      forall c | 0 <= c < ch
        ensures ChannelDone(store.configs, old(store.configs), job, c, channels[c], maxLevels, results[c])
      {
        ChannelDoneKept(before, store.configs, old(store.configs), old(store.configs), job, c, channels[c], maxLevels, results[c]);
      }
      ChannelDoneKept(store.configs, store.configs, before, old(store.configs), job, ch, channels[ch], maxLevels, result.value);
      exports := exports + [result.value.metadata];
      results := results + [result.value];
    }
    r := Ok(exports);
  }
}
