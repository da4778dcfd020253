/** `ParseTilesImageList.run`: read an image list (a header line, then one
    comma-separated line per tile), build the tiles of every channel with
    consecutive indexes, run the metadata step, require the first channel's
    tiles to form a single connected graph, and check along every axis that
    the adjacency classifier agrees with the tiles' grid coordinates.

    Path handling, the file-name pattern that yields the channel, number
    parsing and the objective-to-pixel conversion (floating point) are
    parameters (`Env`); so are the metadata step, the connected-components
    count, the overlap search and the grid coordinates (`Steps`). */
module ImageList {
  import opened Base
  import opened Geometry
  import opened FilterAdjacent

  /** filepath, filename, stageX, stageY, stageZ, objectiveX, objectiveY, objectiveZ */
  const NUM_COLUMNS_FULL := 8

  // ----- Arguments -----

  datatype ArgumentError = IllegalArgument

  /** The argument guard as written: it rejects only when BOTH lengths differ from 3. */
  function CheckArgumentsAsWritten(pixelResolution: seq<real>, axisMapping: seq<string>): (r: Result<(), ArgumentError>)
    ensures r.Err? <==> |pixelResolution| != 3 && |axisMapping| != 3
  {
    if |pixelResolution| != 3 && |axisMapping| != 3 then Err(IllegalArgument) else Ok(())
  }

  /** The guard its message describes: both arguments must be three-dimensional. */
  function CheckArguments(pixelResolution: seq<real>, axisMapping: seq<string>): (r: Result<(), ArgumentError>)
    ensures r.Ok? ==> |pixelResolution| == 3 && |axisMapping| == 3
  {
    if |pixelResolution| != 3 || |axisMapping| != 3 then Err(IllegalArgument) else Ok(())
  }

  /** The corrected guard accepts exactly the three-dimensional arguments;
      it accepts nothing the written guard rejects. */
  lemma CheckArgumentsAcceptsThreeDimensional(pixelResolution: seq<real>, axisMapping: seq<string>)
    ensures CheckArguments(pixelResolution, axisMapping).Ok? <==> |pixelResolution| == 3 && |axisMapping| == 3
    ensures CheckArguments(pixelResolution, axisMapping).Ok? ==> CheckArgumentsAsWritten(pixelResolution, axisMapping).Ok?
  {
  }

  /** The two guards disagree exactly on the arguments of which one is
      three-dimensional and the other is not: the written guard lets those
      through, and the corrected one rejects them. */
  lemma {:induction false} ArgumentGuardsDiffer(pixelResolution: seq<real>, axisMapping: seq<string>)
    ensures CheckArgumentsAsWritten(pixelResolution, axisMapping).Ok? && CheckArguments(pixelResolution, axisMapping).Err?
        <==> (|pixelResolution| == 3) != (|axisMapping| == 3)
    ensures CheckArgumentsAsWritten(pixelResolution, axisMapping).Err? ==> CheckArguments(pixelResolution, axisMapping).Err?
  {
  }

  /** The written guard lets a two-dimensional resolution through when the
      axis mapping has three entries (and conversely), which the message
      says is an error. */
  lemma ArgumentGuardLetsTwoDimensionalThrough()
    ensures CheckArgumentsAsWritten([0.097, 0.097], ["-y", "x", "z"]).Ok?
    ensures CheckArguments([0.097, 0.097], ["-y", "x", "z"]).Err?
    ensures CheckArgumentsAsWritten([0.097, 0.097, 0.18], ["x", "y"]).Ok?
    ensures CheckArguments([0.097, 0.097, 0.18], ["x", "y"]).Err?
  {
  }

  // ----- One line -----

  /** The helpers a line goes through: `Paths.get(..).toAbsolutePath()`,
      `Paths.get(folder, name)`, `getFileName()`, the channel extracted from
      the file name by the pattern (`None` when it is not a number), and the
      objective-to-pixel conversion of the three objective columns (`None`
      when one is not a number). */
  datatype Env = Env(
    absolutePath: string -> string,
    join: (string, string) -> string,
    fileName: string -> string,
    channelOf: string -> Option<int>,
    objectiveToPixel: seq<string> -> Option<seq<int>>)

  /** The image file of a line: the first column when no base folder is
      given (null or empty); otherwise the base folder joined with the file
      name column when all columns are present, or with the file name of the
      first column when the file name column may be missing. */
  function TileFilePath(columns: seq<string>, tileImagesFolder: Option<string>, env: Env): string
    requires |columns| >= 1
  {
    if tileImagesFolder.None? || tileImagesFolder.value == "" then env.absolutePath(columns[0])
    else if |columns| >= NUM_COLUMNS_FULL then env.join(tileImagesFolder.value, columns[1])
    else env.join(tileImagesFolder.value, env.fileName(columns[0]))
  }

  /** The file name column is read only with a base folder and a full line;
      the first column is read in every other case. */
  lemma TileFilePathColumns(columns: seq<string>, tileImagesFolder: Option<string>, env: Env, x: string)
    requires |columns| >= 2
    ensures (tileImagesFolder.None? || tileImagesFolder.value == "" || |columns| < NUM_COLUMNS_FULL)
            ==> TileFilePath(columns[1 := x], tileImagesFolder, env) == TileFilePath(columns, tileImagesFolder, env)
    ensures (tileImagesFolder.Some? && tileImagesFolder.value != "" && |columns| >= NUM_COLUMNS_FULL)
            ==> TileFilePath(columns[0 := x], tileImagesFolder, env) == TileFilePath(columns, tileImagesFolder, env)
  {
  }

  /** What a line yields before the tile is built. */
  datatype ParsedRow = ParsedRow(channel: int, filePath: string, position: seq<int>)

  /** `line` is the line's index in the file, the header being line 0. */
  datatype ParseError = MalformedLine(line: nat) | UnparsableNumber(line: nat)

  /** The objective coordinates: the last three columns. */
  function ObjectiveColumns(columns: seq<string>): (c: seq<string>)
    requires |columns| >= 3
    ensures |c| == 3 && c[0] == columns[|columns| - 3] && c[2] == columns[|columns| - 1]
  {
    columns[|columns| - 3..]
  }

  /** One line: fewer than three columns is an out-of-bounds access in the
      source; the numbers must parse. */
  function ParseRow(columns: seq<string>, line: nat, tileImagesFolder: Option<string>, env: Env): (r: Result<ParsedRow, ParseError>)
    ensures r == Err(MalformedLine(line)) <==> |columns| < 3
    ensures r.Err? ==> r.error.line == line
  {
    if |columns| < 3 then Err(MalformedLine(line))
    else
      var filePath := TileFilePath(columns, tileImagesFolder, env);
      var position := env.objectiveToPixel(ObjectiveColumns(columns));
      if position.None? then Err(UnparsableNumber(line))
      else
        var channel := env.channelOf(env.fileName(filePath));
        if channel.None? then Err(UnparsableNumber(line))
        else Ok(ParsedRow(channel.value, filePath, position.value))
  }

  /** The coordinates come from the last three columns whatever the column
      count: columns inserted before them do not change the position. */
  lemma PositionFromLastThreeColumns(columns: seq<string>, extra: seq<string>, line: nat, tileImagesFolder: Option<string>, env: Env)
    requires |columns| >= 3
    requires ParseRow(columns, line, tileImagesFolder, env).Ok?
    ensures var columns' := columns[..|columns| - 3] + extra + columns[|columns| - 3..];
      ParseRow(columns', line, tileImagesFolder, env).Ok? ==>
      ParseRow(columns', line, tileImagesFolder, env).value.position == ParseRow(columns, line, tileImagesFolder, env).value.position
  {
    var columns' := columns[..|columns| - 3] + extra + columns[|columns| - 3..];
    assert ObjectiveColumns(columns') == ObjectiveColumns(columns);
  }

  // ----- All lines -----

  /** The lines 1 .. k - 1 (after the header), stopping at the first bad one. */
  function ParseUpTo(lines: seq<seq<string>>, k: nat, tileImagesFolder: Option<string>, env: Env): Result<seq<ParsedRow>, ParseError>
    requires k <= |lines|
  {
    if k <= 1 then Ok([])
    else
      match ParseUpTo(lines, k - 1, tileImagesFolder, env)
      case Err(e) => Err(e)
      case Ok(rows) =>
        match ParseRow(lines[k - 1], k - 1, tileImagesFolder, env)
        case Err(e) => Err(e)
        case Ok(row) => Ok(rows + [row])
  }

  /** Every line after the header yields one row, in file order; the parse
      fails exactly when some line does, with the first failing line's error. */
  lemma {:induction false} ParseUpToLines(lines: seq<seq<string>>, k: nat, tileImagesFolder: Option<string>, env: Env)
    requires k <= |lines|
    ensures var r := ParseUpTo(lines, k, tileImagesFolder, env);
      && (r.Ok? <==> forall i :: 1 <= i < k ==> ParseRow(lines[i], i, tileImagesFolder, env).Ok?)
      && (r.Ok? ==> |r.value| == if k == 0 then 0 else k - 1)
      && (r.Ok? ==> forall i :: 1 <= i < k ==> r.value[i - 1] == ParseRow(lines[i], i, tileImagesFolder, env).value)
      && (r.Err? ==>
            exists i :: 1 <= i < k && ParseRow(lines[i], i, tileImagesFolder, env).Err?
                        && r.error == ParseRow(lines[i], i, tileImagesFolder, env).error
                        && (forall j :: 1 <= j < i ==> ParseRow(lines[j], j, tileImagesFolder, env).Ok?))
    decreases k
  {
    if k > 1 {
      ParseUpToLines(lines, k - 1, tileImagesFolder, env);
    }
  }

  /** Once a line fails, later lines do not change the error. */
  lemma {:induction false} ParseUpToErrorStays(lines: seq<seq<string>>, k: nat, j: nat, tileImagesFolder: Option<string>, env: Env)
    requires k <= j <= |lines|
    requires ParseUpTo(lines, k, tileImagesFolder, env).Err?
    ensures ParseUpTo(lines, j, tileImagesFolder, env) == ParseUpTo(lines, k, tileImagesFolder, env)
    decreases j
  {
    if j > k {
      ParseUpToErrorStays(lines, k, j - 1, tileImagesFolder, env);
    }
  }

  // ----- Channel grouping -----

  function NewTile(index: int, row: ParsedRow, pixelResolution: seq<real>): TileInfo {
    TileInfo(index, row.filePath, row.position, None, pixelResolution)
  }

  /** The channel map the loop fills, row by row: a row's tile takes the
      size of its channel's list as index and is appended to it. */
  function Group(rows: seq<ParsedRow>, pixelResolution: seq<real>): map<int, seq<TileInfo>>
    decreases |rows|
  {
    if |rows| == 0 then map[]
    else
      var m := Group(rows[..|rows| - 1], pixelResolution);
      var row := rows[|rows| - 1];
      var list := if row.channel in m then m[row.channel] else [];
      m[row.channel := list + [NewTile(|list|, row, pixelResolution)]]
  }

  /** The rows of one channel, in file order. */
  function OfChannel(rows: seq<ParsedRow>, channel: int): seq<ParsedRow>
    decreases |rows|
  {
    if |rows| == 0 then []
    else OfChannel(rows[..|rows| - 1], channel) + (if rows[|rows| - 1].channel == channel then [rows[|rows| - 1]] else [])
  }

  /** The tiles built from a channel's rows: indexes 0, 1, ..., no size yet,
      and the run's pixel resolution. */
  function ChannelTiles(rows: seq<ParsedRow>, pixelResolution: seq<real>): (ts: seq<TileInfo>)
    ensures |ts| == |rows|
  {
    seq(|rows|, k requires 0 <= k < |rows| => NewTile(k, rows[k], pixelResolution))
  }

  /** The map holds a channel exactly when some row has it, and its list is
      the tiles of that channel's rows in file order. */
  lemma {:induction false} GroupIsByChannel(rows: seq<ParsedRow>, pixelResolution: seq<real>, channel: int)
    ensures channel in Group(rows, pixelResolution) <==> |OfChannel(rows, channel)| > 0
    ensures channel in Group(rows, pixelResolution) ==>
      Group(rows, pixelResolution)[channel] == ChannelTiles(OfChannel(rows, channel), pixelResolution)
    decreases |rows|
  {
    if |rows| != 0 {
      var init, row := rows[..|rows| - 1], rows[|rows| - 1];
      GroupIsByChannel(init, pixelResolution, channel);
      if row.channel == channel {
        var before := OfChannel(init, channel);
        assert ChannelTiles(before + [row], pixelResolution)
            == ChannelTiles(before, pixelResolution) + [NewTile(|before|, row, pixelResolution)];
      }
    }
  }

  /** Within each channel the tile indexes are 0, 1, ..., n - 1; each tile
      has no size yet and the run's pixel resolution. */
  lemma ChannelIndexesConsecutive(rows: seq<ParsedRow>, pixelResolution: seq<real>)
    ensures forall channel, k :: channel in Group(rows, pixelResolution) && 0 <= k < |Group(rows, pixelResolution)[channel]| ==>
      var tile := Group(rows, pixelResolution)[channel][k];
      tile.index == k && tile.size.None? && tile.pixelResolution == pixelResolution
  {
    forall channel | channel in Group(rows, pixelResolution)
      ensures Group(rows, pixelResolution)[channel] == ChannelTiles(OfChannel(rows, channel), pixelResolution)
    {
      GroupIsByChannel(rows, pixelResolution, channel);
    }
  }

  function Counts(m: map<int, seq<TileInfo>>): map<int, nat> {
    map channel | channel in m :: |m[channel]|
  }

  lemma CountsUpdate(m: map<int, seq<TileInfo>>, channel: int, list: seq<TileInfo>)
    ensures Counts(m[channel := list]) == Counts(m)[channel := |list|]
  {
  }

  /** Every row yields exactly one tile: the list lengths sum to the row count. */
  lemma {:induction false} GroupKeepsEveryRow(rows: seq<ParsedRow>, pixelResolution: seq<real>)
    ensures MapSum(Counts(Group(rows, pixelResolution))) == |rows|
    decreases |rows|
  {
    if |rows| != 0 {
      var init, row := rows[..|rows| - 1], rows[|rows| - 1];
      GroupKeepsEveryRow(init, pixelResolution);
      var m := Group(init, pixelResolution);
      var c := Counts(m);
      var list := if row.channel in m then m[row.channel] else [];
      CountsUpdate(m, row.channel, list + [NewTile(|list|, row, pixelResolution)]);
      MapSumAdd(c, row.channel, 1);
    }
  }

  /** The tiles of the image list, or the first bad line's error. */
  function ParseTiles(lines: seq<seq<string>>, tileImagesFolder: Option<string>, pixelResolution: seq<real>, env: Env): Result<map<int, seq<TileInfo>>, ParseError> {
    match ParseUpTo(lines, |lines|, tileImagesFolder, env)
    case Err(e) => Err(e)
    case Ok(rows) => Ok(Group(rows, pixelResolution))
  }

  /** The line-reading loop of `run`: skip the header, then add one tile per line. */
  method ReadImageList(lines: seq<seq<string>>, tileImagesFolder: Option<string>, pixelResolution: seq<real>, env: Env)
    returns (r: Result<map<int, seq<TileInfo>>, ParseError>)
    ensures r == ParseTiles(lines, tileImagesFolder, pixelResolution, env)
  {
    var tiles: map<int, seq<TileInfo>> := map[];
    if |lines| == 0 {
      return Ok(tiles);
    }
    var k := 1;
    while k < |lines|
      invariant 1 <= k <= |lines|
      invariant ParseUpTo(lines, k, tileImagesFolder, env).Ok?
      invariant tiles == Group(ParseUpTo(lines, k, tileImagesFolder, env).value, pixelResolution)
    {
      ghost var rows := ParseUpTo(lines, k, tileImagesFolder, env).value;
      var row := ParseRow(lines[k], k, tileImagesFolder, env);
      if row.Err? {
        ParseUpToErrorStays(lines, k + 1, |lines|, tileImagesFolder, env);
        return Err(row.error);
      }
      tiles := AddRow(tiles, rows, row.value, pixelResolution);
      k := k + 1;
    }
    return Ok(tiles);
  }

  /** The loop body for a parsed line: append its tile to its channel's
      list, creating the list on the channel's first line. */
  method AddRow(tiles: map<int, seq<TileInfo>>, ghost rows: seq<ParsedRow>, row: ParsedRow, pixelResolution: seq<real>)
    returns (tiles': map<int, seq<TileInfo>>)
    requires tiles == Group(rows, pixelResolution)
    ensures tiles' == Group(rows + [row], pixelResolution)
  {
    assert (rows + [row])[..|rows|] == rows;
    tiles' := tiles;
    var channel := row.channel;
    if channel !in tiles' {
      tiles' := tiles'[channel := []];
    }
    var tile := NewTile(|tiles'[channel]|, row, pixelResolution);
    tiles' := tiles'[channel := tiles'[channel] + [tile]];
  }

  // ----- Grid check -----

  /** `Utils.getTileCoordinates` gives one grid coordinate per axis. */
  ghost predicate GridPerAxis(grid: TileInfo -> seq<int>) {
    forall t: TileInfo :: |grid(t)| == |t.position|
  }

  /** The pair's tiles are grid neighbours along `d`: their grid coordinates
      differ on axis `d` only, and by one. */
  predicate GridAdjacent(p: TilePair, d: int, grid: TileInfo -> seq<int>)
    requires GridPerAxis(grid) && Overlapping3D(p)
  {
    var a, b, n := grid(p.first), grid(p.second), |p.first.position|;
    && 0 <= d < n
    && (b[d] - a[d] == 1 || b[d] - a[d] == -1)
    && forall k :: 0 <= k < n && k != d ==> a[k] == b[k]
  }

  /** The loop building the per-axis differences of two grid positions. */
  method GridDifference(a: seq<int>, b: seq<int>, n: nat) returns (diff: map<int, int>)
    requires n <= |a| && n <= |b|
    ensures forall k :: k in diff <==> 0 <= k < n && a[k] != b[k]
    ensures forall k :: k in diff ==> diff[k] == b[k] - a[k]
  {
    diff := map[];
    for k := 0 to n
      invariant forall j :: j in diff <==> 0 <= j < k && a[j] != b[j]
      invariant forall j :: j in diff ==> diff[j] == b[j] - a[j]
    {
      if b[k] != a[k] {
        diff := diff[k := b[k] - a[k]];
      }
    }
  }

  /** The source's test on the differences (one axis, it is `d`, by one)
      is grid adjacency along `d`. */
  lemma SingleDifferenceIsGridAdjacent(p: TilePair, d: int, grid: TileInfo -> seq<int>, diff: map<int, int>)
    requires GridPerAxis(grid) && Overlapping3D(p)
    requires var a, b, n := grid(p.first), grid(p.second), |p.first.position|;
      (forall k :: k in diff <==> 0 <= k < n && a[k] != b[k]) && (forall k :: k in diff ==> diff[k] == b[k] - a[k])
    ensures (|diff| == 1 && d in diff && (diff[d] == 1 || diff[d] == -1)) <==> GridAdjacent(p, d, grid)
  {
    var a, b, n := grid(p.first), grid(p.second), |p.first.position|;
    if |diff| == 1 && d in diff {
      forall k | 0 <= k < n && k != d
        ensures a[k] == b[k]
      {
        if a[k] != b[k] {
          assert {d, k} <= diff.Keys;
          assert |{d, k}| == 2;
          SubsetCardinality({d, k}, diff.Keys);
        }
      }
    }
    if GridAdjacent(p, d, grid) {
      assert d in diff;
      forall k | k in diff
        ensures k == d
      {
      }
      assert diff.Keys == {d};
    }
  }

  lemma SubsetCardinality(s: set<int>, t: set<int>)
    requires s <= t
    ensures |s| <= |t|
  {
    assert t == s + (t - s);
  }

  /** The hash-set identity of the grid-adjacent pairs, in order. */
  function GridKeys(pairs: seq<TilePair>, d: int, grid: TileInfo -> seq<int>): seq<(int, int)>
    requires GridPerAxis(grid) && AllOverlapping3D(pairs)
    decreases |pairs|
  {
    if |pairs| == 0 then []
    else
      var p := pairs[|pairs| - 1];
      GridKeys(pairs[..|pairs| - 1], d, grid) + (if GridAdjacent(p, d, grid) then [PairKey(p)] else [])
  }

  lemma {:induction false} GridKeysAppend(xs: seq<TilePair>, ys: seq<TilePair>, d: int, grid: TileInfo -> seq<int>)
    requires GridPerAxis(grid) && AllOverlapping3D(xs) && AllOverlapping3D(ys)
    ensures AllOverlapping3D(xs + ys)
    ensures GridKeys(xs + ys, d, grid) == GridKeys(xs, d, grid) + GridKeys(ys, d, grid)
    decreases |ys|
  {
    AllOverlappingAppend(xs, ys);
    if |ys| != 0 {
      var ys', y := ys[..|ys| - 1], ys[|ys| - 1];
      assert AllOverlapping3D(ys');
      AllOverlappingAppend(xs, ys');
      GridKeysAppend(xs, ys', d, grid);
      assert (xs + ys)[..|xs + ys| - 1] == xs + ys';
      assert (xs + ys)[|xs + ys| - 1] == y;
      var t := if GridAdjacent(y, d, grid) then [PairKey(y)] else [];
      calc {
        GridKeys(xs + ys, d, grid);
        GridKeys(xs + ys', d, grid) + t;
        (GridKeys(xs, d, grid) + GridKeys(ys', d, grid)) + t;
        GridKeys(xs, d, grid) + (GridKeys(ys', d, grid) + t);
        GridKeys(xs, d, grid) + GridKeys(ys, d, grid);
      }
    } else {
      assert xs + ys == xs;
    }
  }

  lemma AllOverlappingAppend(xs: seq<TilePair>, ys: seq<TilePair>)
    requires AllOverlapping3D(xs) && AllOverlapping3D(ys)
    ensures AllOverlapping3D(xs + ys)
  {
    forall i | 0 <= i < |xs + ys|
      ensures Overlapping3D((xs + ys)[i])
    {
      if i < |xs| {
        assert (xs + ys)[i] == xs[i];
      } else {
        assert (xs + ys)[i] == ys[i - |xs|];
      }
    }
  }

  predicate Distinct<T(==)>(xs: seq<T>) {
    forall i, j :: 0 <= i < j < |xs| ==> xs[i] != xs[j]
  }

  function KeySet(pairs: seq<TilePair>): set<(int, int)> {
    set p | p in pairs :: PairKey(p)
  }

  /** The classifier and the grid agree along `d`: the grid-adjacent pairs
      are distinct pairs, and they are exactly the pairs the classifier kept. */
  predicate GridConsistent(overlappingPairs: seq<TilePair>, adjacentPairs: seq<TilePair>, d: int, grid: TileInfo -> seq<int>)
    requires GridPerAxis(grid) && AllOverlapping3D(overlappingPairs)
  {
    var keys := GridKeys(overlappingPairs, d, grid);
    Distinct(keys) && (set k | k in keys) == KeySet(adjacentPairs)
  }

  datatype GridError =
    | AdjacentPairsMismatch  // a grid neighbour the classifier did not keep (or met twice)
    | ExtraAdjacentPairs     // a kept pair that is not a grid neighbour

  /** The state of the verification loop after the first `i` pairs. */
  predicate GridLoopState(overlappingPairs: seq<TilePair>, adjacentPairs: seq<TilePair>, d: int, grid: TileInfo -> seq<int>,
                          i: nat, remaining: set<(int, int)>)
    requires GridPerAxis(grid) && AllOverlapping3D(overlappingPairs) && i <= |overlappingPairs|
  {
    var seen := GridKeys(overlappingPairs[..i], d, grid);
    && Distinct(seen)
    && (set k | k in seen) <= KeySet(adjacentPairs)
    && remaining == KeySet(adjacentPairs) - (set k | k in seen)
  }

  /** One step of the verification loop; `false` is the mismatch error. */
  method GridStep(overlappingPairs: seq<TilePair>, adjacentPairs: seq<TilePair>, d: int, grid: TileInfo -> seq<int>,
                  i: nat, remaining: set<(int, int)>) returns (ok: bool, remaining': set<(int, int)>)
    requires GridPerAxis(grid) && AllOverlapping3D(overlappingPairs) && i < |overlappingPairs|
    requires GridLoopState(overlappingPairs, adjacentPairs, d, grid, i, remaining)
    ensures ok ==> GridLoopState(overlappingPairs, adjacentPairs, d, grid, i + 1, remaining')
    ensures !ok ==> var seen := GridKeys(overlappingPairs[..i + 1], d, grid);
      !(Distinct(seen) && (set k | k in seen) <= KeySet(adjacentPairs))
  {
    var pair := overlappingPairs[i];
    var diff := GridDifference(grid(pair.first), grid(pair.second), |pair.first.position|);
    SingleDifferenceIsGridAdjacent(pair, d, grid, diff);
    ghost var seen := GridKeys(overlappingPairs[..i], d, grid);
    assert overlappingPairs[..i + 1][..i] == overlappingPairs[..i];
    assert GridKeys(overlappingPairs[..i + 1], d, grid) == seen + (if GridAdjacent(pair, d, grid) then [PairKey(pair)] else []);
    remaining' := remaining;
    // with one entry, the map's first key is `d` exactly when `d` is a key
    if |diff| == 1 && d in diff && (diff[d] == 1 || diff[d] == -1) {
      var seen' := seen + [PairKey(pair)];
      if PairKey(pair) !in remaining {
        if PairKey(pair) in seen {
          var j :| 0 <= j < |seen| && seen[j] == PairKey(pair);
          assert seen'[j] == seen'[|seen|];
        } else {
          assert PairKey(pair) in (set k | k in seen');
        }
        return false, remaining';
      }
      remaining' := remaining - {PairKey(pair)};
      assert (set k | k in seen') == (set k | k in seen) + {PairKey(pair)};
    }
    return true, remaining';
  }

  /** The verification against grid coordinates along axis `d`: it succeeds
      exactly when the classifier and the grid agree; an extra kept pair is
      reported only when every grid neighbour was kept. */
  method CheckGridAxis(overlappingPairs: seq<TilePair>, adjacentPairs: seq<TilePair>, d: int, grid: TileInfo -> seq<int>)
    returns (r: Result<(), GridError>)
    requires GridPerAxis(grid) && AllOverlapping3D(overlappingPairs)
    ensures r.Ok? <==> GridConsistent(overlappingPairs, adjacentPairs, d, grid)
    ensures r == Err(ExtraAdjacentPairs) ==>
      var keys := GridKeys(overlappingPairs, d, grid);
      Distinct(keys) && (set k | k in keys) < KeySet(adjacentPairs)
  {
    var remaining := set p | p in adjacentPairs :: PairKey(p);
    assert overlappingPairs[..0] == [];
    for i := 0 to |overlappingPairs|
      invariant GridLoopState(overlappingPairs, adjacentPairs, d, grid, i, remaining)
    {
      var ok;
      ok, remaining := GridStep(overlappingPairs, adjacentPairs, d, grid, i, remaining);
      if !ok {
        GridKeysPrefix(overlappingPairs, i + 1, d, grid);
        return Err(AdjacentPairsMismatch);
      }
    }
    assert overlappingPairs[..|overlappingPairs|] == overlappingPairs;
    ghost var keys := GridKeys(overlappingPairs, d, grid);
    if remaining != {} {
      return Err(ExtraAdjacentPairs);
    }
    forall k | k in KeySet(adjacentPairs)
      ensures k in keys
    {
      assert k !in remaining;
    }
    assert (set k | k in keys) == KeySet(adjacentPairs);
    return Ok(());
  }

  /** A failure seen on a prefix of the pairs is a failure on all of them. */
  lemma GridKeysPrefix(pairs: seq<TilePair>, i: nat, d: int, grid: TileInfo -> seq<int>)
    requires GridPerAxis(grid) && AllOverlapping3D(pairs) && i <= |pairs|
    ensures var seen, keys := GridKeys(pairs[..i], d, grid), GridKeys(pairs, d, grid);
      (Distinct(keys) ==> Distinct(seen)) && (set k | k in seen) <= (set k | k in keys)
  {
    GridKeysAppend(pairs[..i], pairs[i..], d, grid);
    assert pairs[..i] + pairs[i..] == pairs;
    var seen, keys := GridKeys(pairs[..i], d, grid), GridKeys(pairs, d, grid);
    assert forall j :: 0 <= j < |seen| ==> keys[j] == seen[j];
  }

  // ----- The whole run -----

  /** The steps `run` hands over to code this model does not contain: the
      metadata step (`None` when tiles are missing and the program exits),
      the sizes of the connected components of a tile set, the overlap
      search, the classifier of the pairs adjacent along an axis
      (`FilterAdjacentShifts.filterAdjacentPairs(pairs, d)`), and the grid
      coordinates of a tile. */
  datatype Steps = Steps(
    metadata: map<int, seq<TileInfo>> -> Option<map<int, seq<TileInfo>>>,
    componentSizes: seq<TileInfo> -> seq<nat>,
    findOverlappingTiles: seq<TileInfo> -> seq<TilePair>,
    adjacentAlong: (seq<TilePair>, int) -> seq<TilePair>,
    gridCoordinates: TileInfo -> seq<int>)

  /** The overlap search returns overlapping pairs of three-dimensional
      tiles, and grid coordinates have one entry per axis. */
  ghost predicate ValidSteps(steps: Steps) {
    && (forall ts: seq<TileInfo> :: AllOverlapping3D(steps.findOverlappingTiles(ts)))
    && GridPerAxis(steps.gridCoordinates)
  }

  datatype RunError =
    | IllegalArguments
    | BadLine(lineError: ParseError)
    | MissingTiles
    | NoTiles
    | SeveralComponents(sizes: seq<nat>)
    | GridMismatch(axis: nat, gridError: GridError)

  /** `first` is the smallest channel of the map (`TreeMap.firstKey`). */
  predicate IsFirstChannel(tiles: map<int, seq<TileInfo>>, first: int) {
    first in tiles && forall c :: c in tiles ==> first <= c
  }

  /** The checks on the first channel's tiles pass: they form a single
      connected graph, and along every axis of the first tile the adjacency
      classifier agrees with the grid coordinates. */
  ghost predicate FirstChannelPasses(tileInfos: seq<TileInfo>, steps: Steps)
    requires ValidSteps(steps)
  {
    && |steps.componentSizes(tileInfos)| <= 1
    && |tileInfos| > 0
    && var overlapping := steps.findOverlappingTiles(tileInfos);
       forall d :: 0 <= d < |tileInfos[0].position| ==>
         GridConsistent(overlapping, steps.adjacentAlong(overlapping, d), d, steps.gridCoordinates)
  }

  /** All checks `run` performs pass on the image list. */
  ghost predicate RunSucceeds(lines: seq<seq<string>>, tileImagesFolder: Option<string>, pixelResolution: seq<real>,
                              axisMapping: seq<string>, env: Env, steps: Steps)
    requires ValidSteps(steps)
  {
    && CheckArguments(pixelResolution, axisMapping).Ok?
    && ParseTiles(lines, tileImagesFolder, pixelResolution, env).Ok?
    && steps.metadata(ParseTiles(lines, tileImagesFolder, pixelResolution, env).value).Some?
    && var tiles := steps.metadata(ParseTiles(lines, tileImagesFolder, pixelResolution, env).value).value;
       && |tiles| > 0
       && forall first :: IsFirstChannel(tiles, first) ==> FirstChannelPasses(tiles[first], steps)
  }

  /** The grid verification over the axes `0 .. n - 1`, stopping at the first mismatch. */
  method CheckGridAxes(overlappingPairs: seq<TilePair>, n: nat, adjacentAlong: (seq<TilePair>, int) -> seq<TilePair>,
                       grid: TileInfo -> seq<int>) returns (r: Result<(), RunError>)
    requires GridPerAxis(grid) && AllOverlapping3D(overlappingPairs)
    ensures r.Ok? <==> forall d :: 0 <= d < n ==> GridConsistent(overlappingPairs, adjacentAlong(overlappingPairs, d), d, grid)
    ensures r.Err? ==> r.error.GridMismatch? && r.error.axis < n
    ensures r.Err? ==> !GridConsistent(overlappingPairs, adjacentAlong(overlappingPairs, r.error.axis), r.error.axis, grid)
  {
    for d := 0 to n
      invariant forall e :: 0 <= e < d ==> GridConsistent(overlappingPairs, adjacentAlong(overlappingPairs, e), e, grid)
    {
      var adjacentPairsDim := adjacentAlong(overlappingPairs, d);
      var check := CheckGridAxis(overlappingPairs, adjacentPairsDim, d, grid);
      if check.Err? {
        return Err(GridMismatch(d, check.error));
      }
    }
    return Ok(());
  }

  /** The checks on the first channel (lines 185-239 of `run`). */
  method CheckFirstChannel(tileInfos: seq<TileInfo>, steps: Steps) returns (r: Result<(), RunError>)
    requires ValidSteps(steps)
    ensures r.Ok? <==> FirstChannelPasses(tileInfos, steps)
    ensures r.Err? ==> r.error.SeveralComponents? || r.error.NoTiles? || r.error.GridMismatch?
  {
    var sizes := steps.componentSizes(tileInfos);
    if |sizes| > 1 {
      return Err(SeveralComponents(sizes));
    }
    if |tileInfos| == 0 {
      return Err(NoTiles);
    }
    var overlappingPairs := steps.findOverlappingTiles(tileInfos);
    r := CheckGridAxes(overlappingPairs, |tileInfos[0].position|, steps.adjacentAlong, steps.gridCoordinates);
  }

  /** `run`: on success the tiles of every channel, to be saved as
      `<channel>nm.json` next to the image list. */
  method Run(lines: seq<seq<string>>, tileImagesFolder: Option<string>, pixelResolution: seq<real>,
             axisMapping: seq<string>, env: Env, steps: Steps)
    returns (r: Result<map<int, seq<TileInfo>>, RunError>)
    requires ValidSteps(steps)
    ensures r.Ok? <==> RunSucceeds(lines, tileImagesFolder, pixelResolution, axisMapping, env, steps)
    ensures r.Ok? ==> r.value == steps.metadata(ParseTiles(lines, tileImagesFolder, pixelResolution, env).value).value
    ensures r == Err(IllegalArguments) <==> CheckArguments(pixelResolution, axisMapping).Err?
    ensures r.Err? && r.error.BadLine? <==>
      CheckArguments(pixelResolution, axisMapping).Ok? && ParseTiles(lines, tileImagesFolder, pixelResolution, env).Err?
  {
    if CheckArguments(pixelResolution, axisMapping).Err? {
      return Err(IllegalArguments);
    }
    var parsed := ReadImageList(lines, tileImagesFolder, pixelResolution, env);
    if parsed.Err? {
      return Err(BadLine(parsed.error));
    }
    var processed := steps.metadata(parsed.value);
    if processed.None? {
      return Err(MissingTiles);
    }
    var tiles := processed.value;
    if |tiles| == 0 {
      return Err(NoTiles);
    }
    var firstChannel := Smallest(tiles.Keys);
    assert IsFirstChannel(tiles, firstChannel);
    forall first | IsFirstChannel(tiles, first)
      ensures first == firstChannel
    {
    }
    var check := CheckFirstChannel(tiles[firstChannel], steps);
    if check.Err? {
      return Err(check.error);
    }
    return Ok(tiles);
  }
}
