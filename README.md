# Stitching pipeline core, modelled in Dafny

This project models the parts of the light-sheet stitching pipeline that
decide which tiles and cells are produced. It covers six parts:

- **Tuple order.** `ComparableTuple`, the tuple of values ordered
  lexicographically.
- **Coplanarity test.** `CheckSubTileConfigurationCoplanarity` groups
  sub-tile boxes by their minimum corner. It then decides whether the
  (at most four) corners lie on one plane: either one orthogonal to an axis,
  or one tilted by 45 degrees.
- **Sub-tile pairs.** `WarpedSplitTileOperations` enumerates every pair of
  split tile boxes i < j. It keeps the pairs whose boxes come from different
  original tiles and overlap once the moving box is transformed. When
  `adjacent` is set, a kept pair must also be adjacent.
- **Adjacent-shift filter.** `FilterAdjacentShiftsMulti` walks the pairwise
  shifts. It skips shifts that have an invalid peak. It keeps the shifts
  whose overlap is short along exactly one axis, optionally a chosen one.
  It orients each kept pair along that axis and records a validation set.
  The condition is evaluated as Java does, with short circuits. An
  all-valid shift on which the source throws (no peak, a tile without a
  size, tiles that do not overlap, or a condition that reads an axis the
  overlap lacks) makes the model return an error naming that shift, with
  the shifts before it already processed. A two-axis overlap short on both
  axes is rejected without reading a third axis, so it does not throw. The file's `filterAdjacentPairs`
  applies the same condition to plain tile pairs.
- **Image-list import.** `ParseTilesImageList.run` checks its arguments and
  parses the image list, one tile per line, grouped by channel. It runs the
  metadata step. It then checks that the first channel forms one connected
  graph, and that on every axis the adjacency classifier agrees with the
  grid coordinates.
- **Multiscale fusion.** `PipelineFusionStepExecutor.runImpl` builds, per
  channel, the levels of a multiscale pyramid. A level is resumed when its
  configuration is stored. Otherwise it is built from the previous level,
  through an XY-only tier when the Z factor has moved on. Each level is cut
  into cells, each cell is fused, and empty cells are dropped. The loop stops
  at an empty level or once the level is small. The channel's export metadata
  records every level's factors and cell size.

The modules follow the source files:

| Module | Models |
|---|---|
| `Tuples` | `ComparableTuple` |
| `Coplanarity` | the coplanarity test |
| `SplitTiles` | `WarpedSplitTileOperations` |
| `FilterAdjacent` | `FilterAdjacentShiftsMulti` |
| `ImageList` | `ParseTilesImageList` |
| `FusionLevels`, `FusionCells`, `Fusion` | the fusion step: per-level geometry, one tier of cells, the level loop |

`Base` and `Geometry` hold the shared vocabulary: `Option`, `Result`,
Java's truncating division, boxes, and tiles.

**How the Java is rendered.**

- Exceptions become `Err` values of a `Result`, and `null` becomes `None`.
- Code the core calls but does not define becomes function-typed fields of
  a parameter record (`Env`, `Helpers`, `Steps`, `Scaling`), each with the
  few facts the core relies on. This covers file paths, regular
  expressions, the space partition, the fusion kernels, graph connectivity,
  the adjacent-pair filter that the image-list import calls
  (`FilterAdjacentShifts.filterAdjacentPairs`, a field of `ImageList.Steps`)
  and the metadata step.
- Loops are `while`/`for` loops with invariants, proved against functions
  that define their results.
- Objects the source mutates in place are classes: the peaks of a shift
  (`FilterAdjacent.Peak`) and the store of tier configurations and cell
  images (`FusionCells.TierStore`).
- Arrays the fusion step fills and then resets in place stay `array`s
  (`FusionLevels.LevelGeometry`, `FusionLevels.ResetXy`).

## Model

Paths are relative to the repository root.

| member | source | states |
|---|---|---|
| Tuples.CompareTo | src/main/java/org/janelia/util/ComparableTuple.java:34-46 | Tuples of different lengths give `IllegalArgument`. Otherwise the result is 0 exactly when every element comparison is 0; a non-zero result is the element comparison at the first position where one is non-zero, and every earlier position compares as 0. |
| Tuples.LexicographicIsFirstDifference | src/main/java/org/janelia/util/ComparableTuple.java:41-45 | The comparison loop returns 0 exactly when all element comparisons are 0. Otherwise it returns the comparison at the first differing position. |
| Tuples.LexicographicReflexive | src/main/java/org/janelia/util/ComparableTuple.java:41-45 | When the element order keeps Java's `Comparable` contract, a tuple compared with itself gives 0. |
| Tuples.LexicographicAntisymmetric | src/main/java/org/janelia/util/ComparableTuple.java:41-45 | Swapping the operands negates the sign of the result. |
| Tuples.LexicographicConsistent | src/main/java/org/janelia/util/ComparableTuple.java:41-45 | Two tuples that compare as 0 compare with the same sign against any third tuple. |
| Tuples.LexicographicTransitive | src/main/java/org/janelia/util/ComparableTuple.java:41-45 | a > b and b > c imply a > c. |
| Tuples.CompareToIsComparable | src/main/java/org/janelia/util/ComparableTuple.java:34-46 | On tuples of one length, `compareTo` satisfies Java's `Comparable` contract: reflexivity, sign antisymmetry, transitivity and consistency. This is what makes the tuples usable as `TreeMap` keys. |
| Coplanarity.GroupingCounts | src/main/java/org/janelia/stitching/CheckSubTileConfigurationCoplanarity.java:17-26 | A corner is a key of the grouping exactly when some box has it as its minimum corner. Its count is the number of boxes with that corner. |
| Coplanarity.GroupingSum | src/main/java/org/janelia/stitching/CheckSubTileConfigurationCoplanarity.java:17-26 | The counts of the grouping add up to the number of boxes, so no box is lost or counted twice. |
| Coplanarity.GroupSubTilesByTheirLocalPosition | src/main/java/org/janelia/stitching/CheckSubTileConfigurationCoplanarity.java:17-26 | Fails (the key comparison throws) exactly when the boxes are not all of one dimensionality. Otherwise it returns the grouping: minimum corner to number of boxes. |
| Coplanarity.CollectAxisValues | src/main/java/org/janelia/stitching/CheckSubTileConfigurationCoplanarity.java:42-49 | The collected set is exactly the set of coordinates the corners take on axis `d`. |
| Coplanarity.AxisValuesAtMostOne | src/main/java/org/janelia/stitching/CheckSubTileConfigurationCoplanarity.java:47-48 | At most one value on axis `d` holds exactly when all corners share their coordinate on that axis, i.e. they lie on a plane orthogonal to it. |
| Coplanarity.CollectSubgroups | src/main/java/org/janelia/stitching/CheckSubTileConfigurationCoplanarity.java:54-67 | The loop runs to the end exactly when every corner has equal coordinates on the two other axes. It then returns, for each projection onto those axes, the number of corners with that projection. |
| Coplanarity.CheckCoplanarity | src/main/java/org/janelia/stitching/CheckSubTileConfigurationCoplanarity.java:28-79 | Equals the decision `Coplanarity`, which works as follows. It fails for corners that are not three-dimensional, and returns true below four corners and false above four. With exactly four, it returns true when all corners share one axis value, or when on some axis all corners are diagonal and split two and two. A diagonal split into two other than 2+2 fails. |
| Coplanarity.TwoSubgroupsSplitFour | src/main/java/org/janelia/stitching/CheckSubTileConfigurationCoplanarity.java:69-74 | With four corners in two subgroups, each subgroup has 1 to 3 corners and the two add up to 4. So the failing branch is reached only by a 1+3 split. |
| Coplanarity.TwoSubgroupsPartition | src/main/java/org/janelia/stitching/CheckSubTileConfigurationCoplanarity.java:54-69 | Two distinct subgroups partition the corners. |
| Coplanarity.TiltedPlaneIsDiagonal | src/main/java/org/janelia/stitching/CheckSubTileConfigurationCoplanarity.java:52-78 | When the tilted-plane loop accepts, some axis from the start axis on has all corners diagonal. |
| Coplanarity.CoplanarFourCornersLieOnAPlane | src/main/java/org/janelia/stitching/CheckSubTileConfigurationCoplanarity.java:28-79 | Four corners that the decision accepts are three-dimensional. They lie on a plane orthogonal to an axis, or on the 45-degree diagonal plane of the two other axes. |
| Coplanarity.TiltedPlaneAgreesInCacheRange | src/main/java/org/janelia/stitching/CheckSubTileConfigurationCoplanarity.java:63 | For coordinates in [-128, 127], the identity comparison of boxed `Long`s and the value comparison give the same tilted-plane result. |
| Coplanarity.ReferenceComparisonAgreesInCacheRange | src/main/java/org/janelia/stitching/CheckSubTileConfigurationCoplanarity.java:28-79 | For coordinates in [-128, 127], the decision as written equals the corrected decision. |
| Coplanarity.BoxedComparisonRejectsTiltedPlane | src/main/java/org/janelia/stitching/CheckSubTileConfigurationCoplanarity.java:63 | On the corners (0,200,200), (1,200,200), (0,300,300) and (1,300,300), the decision with value comparison accepts the tilted plane. The decision as written rejects it. |
| SplitTiles.IsOverlappingTileBoxPairIff | src/main/java/org/janelia/stitching/WarpedSplitTileOperations.java:49-63 | A pair passes exactly when three things hold. Its boxes come from different original tiles. The fixed box meets the transformed moving box. When `adjacent` is set, the overlap is also adjacent for the pair's minimum tile dimensions. |
| SplitTiles.CandidatesAreAllPairs | src/main/java/org/janelia/stitching/WarpedSplitTileOperations.java:28-36 | The nested loops visit exactly the index pairs i < j < n, each once, in lexicographic order: n(n-1)/2 of them. |
| SplitTiles.ScanRow | src/main/java/org/janelia/stitching/WarpedSplitTileOperations.java:30-35 | After the inner loop for row `i`, the list holds the passing pairs of every row up to and including `i`. |
| SplitTiles.VisitPair | src/main/java/org/janelia/stitching/WarpedSplitTileOperations.java:32-34 | One inner step appends pair (i, j) exactly when it passes. |
| SplitTiles.FindOverlappingTileBoxes | src/main/java/org/janelia/stitching/WarpedSplitTileOperations.java:25-38 | Returns the passing pairs among all index pairs i < j, in the loops' order. |
| SplitTiles.EnumerateMembers | src/main/java/org/janelia/stitching/WarpedSplitTileOperations.java:25-38 | A pair is listed exactly when it is the pair at a visited index pair that passes. The list is never longer than the index pairs visited. |
| SplitTiles.FoundPairsInOrder | src/main/java/org/janelia/stitching/WarpedSplitTileOperations.java:25-38 | The k-th listed pair is (box i, box j) for an index pair i < j. These index pairs strictly increase in lexicographic order. |
| SplitTiles.FoundPairsComplete | src/main/java/org/janelia/stitching/WarpedSplitTileOperations.java:25-38 | Every pair (box i, box j) with i < j that passes the test is listed. |
| SplitTiles.FoundPairsSound | src/main/java/org/janelia/stitching/WarpedSplitTileOperations.java:25-38 | Every listed pair is two boxes i < j that pass the test. In particular, the two boxes never come from the same original tile. |
| SplitTiles.FoundPairsCount | src/main/java/org/janelia/stitching/WarpedSplitTileOperations.java:25-38 | At most n(n-1)/2 pairs are listed. |
| SplitTiles.AdjacentIsSubsequence | src/main/java/org/janelia/stitching/WarpedSplitTileOperations.java:56-59 | The search with `adjacent` set lists exactly the overlapping pairs whose overlap is adjacent. This is a sub-multiset of the search without it, in the same order. |
| FilterAdjacent.KeepConditionIff | src/main/java/org/janelia/stitching/analysis/FilterAdjacentShiftsMulti.java:203-210 | The three-clause condition keeps a pair exactly when its short edges are on exactly one axis `a`, and either no axis is asked for or `a` is the one asked for. |
| FilterAdjacent.OnlyShortAxisUnique | src/main/java/org/janelia/stitching/analysis/FilterAdjacentShiftsMulti.java:203-210 | At most one axis can be the only short one, so a kept pair is adjacent along a single axis. |
| FilterAdjacent.ShortEdgesSwapped | src/main/java/org/janelia/stitching/analysis/FilterAdjacentShiftsMulti.java:193-210 | Swapping the two tiles of a pair changes neither its short edges nor whether it is kept. |
| FilterAdjacent.FilterAdjacentPairs | src/main/java/org/janelia/stitching/analysis/FilterAdjacentShiftsMulti.java:187-216 | Returns the kept pairs (`AdjacentPairs`) in input order. |
| FilterAdjacent.FilterAdjacentPairsAlong | src/main/java/org/janelia/stitching/analysis/FilterAdjacentShiftsMulti.java:177-180 | The overload with an axis returns the pairs adjacent along that axis. |
| FilterAdjacent.FilterAdjacentPairsAny | src/main/java/org/janelia/stitching/analysis/FilterAdjacentShiftsMulti.java:182-185 | The overload without an axis returns the pairs adjacent along any axis. |
| FilterAdjacent.AdjacentPairsMembers | src/main/java/org/janelia/stitching/analysis/FilterAdjacentShiftsMulti.java:187-216 | A pair is in the result exactly when it is in the input and its short edges are on exactly one axis, which is the requested one if any. |
| FilterAdjacent.AdjacentPairsSubsequence | src/main/java/org/janelia/stitching/analysis/FilterAdjacentShiftsMulti.java:187-216 | The result is a sub-multiset of the input and no longer than it. |
| FilterAdjacent.AdjacentPairsPartition | src/main/java/org/janelia/stitching/analysis/FilterAdjacentShiftsMulti.java:187-216 | The pairs kept for any axis are exactly the union of those kept along x, along y and along z, as multisets. |
| FilterAdjacent.AdjacentPairsOtherAxis | src/main/java/org/janelia/stitching/analysis/FilterAdjacentShiftsMulti.java:203-210 | For an axis other than 0, 1 or 2, nothing is kept. |
| FilterAdjacent.SkipConditionReads | src/main/java/org/janelia/stitching/analysis/FilterAdjacentShiftsMulti.java:118-125 | Evaluated with short circuits, the condition on three or more axes skips exactly the pairs that are not kept. On two axes both short it skips the pair without reading a third axis. On every other overlap it reads past the end of the short edges. |
| FilterAdjacent.ClassifyFollowsCondition | src/main/java/org/janelia/stitching/analysis/FilterAdjacentShiftsMulti.java:108-152 | For an all-valid shift whose first pair overlaps, the outcome is what the source's condition evaluates to: a throw fails the shift, a skip rejects it, and otherwise it is accepted. |
| FilterAdjacent.CornerPairRejected | src/main/java/org/janelia/stitching/analysis/FilterAdjacentShiftsMulti.java:108-125 | Two 100 × 100 tiles at (0, 0) and (90, 90) meet in a corner short on both axes, and the shift is rejected. |
| FilterAdjacent.SidePairFails | src/main/java/org/janelia/stitching/analysis/FilterAdjacentShiftsMulti.java:108-121 | The same tiles at (0, 0) and (90, 0) are short on the first axis only, so the condition reads `shortEdges[2]` and the shift fails. |
| FilterAdjacent.Peak.Swap | src/main/java/org/janelia/stitching/analysis/FilterAdjacentShiftsMulti.java:142-143 | A peak's pair is replaced by its swap, and its validity is unchanged. |
| FilterAdjacent.Peak.SetIsValidOverlap | src/main/java/org/janelia/stitching/analysis/FilterAdjacentShiftsMulti.java:105-106 | A peak's validity is set, and its pair is unchanged. |
| FilterAdjacent.SetAllValid | src/main/java/org/janelia/stitching/analysis/FilterAdjacentShiftsMulti.java:105-106 | Every peak of the shift gets the given validity, and nothing else changes. |
| FilterAdjacent.SwapAll | src/main/java/org/janelia/stitching/analysis/FilterAdjacentShiftsMulti.java:142-143 | Every peak of the shift has its pair swapped, and nothing else changes. |
| FilterAdjacent.AllPeaksValid | src/main/java/org/janelia/stitching/analysis/FilterAdjacentShiftsMulti.java:100-102 | True exactly when every peak of the shift is marked valid. |
| FilterAdjacent.OrientAlongShortAxis | src/main/java/org/janelia/stitching/analysis/FilterAdjacentShiftsMulti.java:135-147 | Swaps all peaks exactly when, on the first short axis, the first tile lies after the second. It reports whether it swapped. |
| FilterAdjacent.ProcessShift | src/main/java/org/janelia/stitching/analysis/FilterAdjacentShiftsMulti.java:100-152 | Classifies the shift from its peaks before the call, and leaves the peaks as that outcome dictates. A shift with an invalid peak is skipped and untouched. An all-valid shift on which the source throws fails, with every peak invalid: it has no peak, its first pair lacks a size or does not overlap, or the condition reads an axis the overlap does not have. A rejected shift, including a two-axis overlap short on both axes, ends with every peak invalid. An accepted one ends with every peak valid and oriented. |
| FilterAdjacent.ProcessReadableShift | src/main/java/org/janelia/stitching/analysis/FilterAdjacentShiftsMulti.java:108-152 | For an all-valid shift whose first pair overlaps, with its peaks just invalidated: evaluates the condition as the source does, failing where it reads past the short edges, rejecting where it skips, and otherwise swapping every pair when needed and marking every peak valid. |
| FilterAdjacent.ProcessShiftAt | src/main/java/org/janelia/stitching/analysis/FilterAdjacentShiftsMulti.java:98-153 | Processing the shift at index `i`, whatever its peaks, leaves every other shift unchanged. |
| FilterAdjacent.VisitShift | src/main/java/org/janelia/stitching/analysis/FilterAdjacentShiftsMulti.java:98-153 | One iteration of the main loop returns the shift's classification and keeps the loop invariant. Shifts before `i + 1` are processed and later ones untouched. The counters and validation set summarise the processed prefix. The accepted shifts are selected in order. |
| FilterAdjacent.FirstFailing | src/main/java/org/janelia/stitching/analysis/FilterAdjacentShiftsMulti.java:103-121 | The index of the first shift on which the command throws, or the number of shifts. A throwing shift has all peaks valid, is not a two-axis overlap short on both axes, and has no three-axis overlapping first pair. No shift before the index fails, and the shift at it does. |
| FilterAdjacent.FirstFailingStep | src/main/java/org/janelia/stitching/analysis/FilterAdjacentShiftsMulti.java:98-153 | Before the first failing shift, a shift that fails is the first failing one, and one that does not leaves the first failure ahead. |
| FilterAdjacent.RunLoop | src/main/java/org/janelia/stitching/analysis/FilterAdjacentShiftsMulti.java:98-153 | The loop runs up to and including the first failing shift and stops there, or runs over every shift; the loop invariant holds where it stops. |
| FilterAdjacent.LoopStopsAt | src/main/java/org/janelia/stitching/analysis/FilterAdjacentShiftsMulti.java:98-153 | Where the loop stops, every shift up to the first failing one is processed and every later one is untouched. |
| FilterAdjacent.FilterShiftsLoop | src/main/java/org/janelia/stitching/analysis/FilterAdjacentShiftsMulti.java:96-153 | Every shift up to the first failing one is processed and the later ones are untouched. It succeeds exactly when no shift fails, and otherwise reports the index of the first failing shift, where the source throws. On success the counters and validation set equal the summary of all shifts, and the adjacent shifts are the accepted ones, in input order. |
| FilterAdjacent.FilterAdjacentShifts | src/main/java/org/janelia/stitching/analysis/FilterAdjacentShiftsMulti.java:25-173 | Fails with "unknown value" exactly when the axis argument is not empty, "x", "y" or "z", and then changes no peak. Otherwise it behaves as `FilterShiftsLoop` with that axis: it fails at the first unreadable all-valid shift, and otherwise returns the summary and the accepted shifts. |
| FilterAdjacent.ParseDim | src/main/java/org/janelia/stitching/analysis/FilterAdjacentShiftsMulti.java:28-30 | An accepted axis argument names axis 0, 1 or 2, or none. |
| FilterAdjacent.ParseDimCondition | src/main/java/org/janelia/stitching/analysis/FilterAdjacentShiftsMulti.java:118-121 | The string tests of the main loop's condition mean the same as the integer tests of `filterAdjacentPairs` on the parsed axis. |
| FilterAdjacent.TallyAccepted | src/main/java/org/janelia/stitching/analysis/FilterAdjacentShiftsMulti.java:96-153 | The validation count equals the number of accepted shifts. That number is at least the swap count and at most the number of valid shifts. The valid shifts are exactly those not skipped. The accepted indexes strictly increase and are exactly the shifts classified as accepted. |
| FilterAdjacent.TallyValidation | src/main/java/org/janelia/stitching/analysis/FilterAdjacentShiftsMulti.java:127-131 | The validation set holds the (smaller, larger) tile-index key of every accepted shift's first pair, and nothing else. |
| FilterAdjacent.SummarizeValidShifts | src/main/java/org/janelia/stitching/analysis/FilterAdjacentShiftsMulti.java:98-104 | `validShifts` counts the shifts whose peaks are all valid. This includes every shift whose first pair the filter reads. |
| FilterAdjacent.SummarizeAccepted | src/main/java/org/janelia/stitching/analysis/FilterAdjacentShiftsMulti.java:98-152 | Shift `i` is accepted exactly when all its peaks are valid, its first pair is readable, and that pair passes the adjacency condition. |
| FilterAdjacent.SummarizeMatchesFilter | src/main/java/org/janelia/stitching/analysis/FilterAdjacentShiftsMulti.java:98-216 | The first pairs of the accepted shifts are exactly what `filterAdjacentPairs` keeps from the first pairs of the valid shifts, in order. The command and the filter agree. |
| FilterAdjacent.SummarizeValidation | src/main/java/org/janelia/stitching/analysis/FilterAdjacentShiftsMulti.java:157-165 | The check the source leaves disabled always passes. The validation count equals the number of adjacent shifts, and every adjacent shift's key is in the validation set. |
| FilterAdjacent.AcceptedShiftOriented | src/main/java/org/janelia/stitching/analysis/FilterAdjacentShiftsMulti.java:134-152 | An accepted shift has a readable first pair. It ends with all peaks valid and all pairs kept, or all swapped. Its first pair's first tile does not lie after the second along the shift's only short axis. |
| FilterAdjacent.ApplyIdempotent | src/main/java/org/janelia/stitching/analysis/FilterAdjacentShiftsMulti.java:98-153 | Running the command's processing again on a processed shift changes nothing, whether it was skipped, failed, rejected or accepted. |
| FilterAdjacent.InvalidatedIdempotent | src/main/java/org/janelia/stitching/analysis/FilterAdjacentShiftsMulti.java:100-106 | A shift whose peaks were all invalidated is left unchanged by the processing. |
| FilterAdjacent.AcceptedIdempotent | src/main/java/org/janelia/stitching/analysis/FilterAdjacentShiftsMulti.java:118-152 | An accepted shift, once processed, is accepted again without a swap and left unchanged. |
| FilterAdjacent.AcceptedFirstPairOriented | src/main/java/org/janelia/stitching/analysis/FilterAdjacentShiftsMulti.java:134-152 | After acceptance, every peak is valid and the first pair is still readable, still kept, and needs no swap. |
| ImageList.CheckArgumentsAsWritten | src/main/java/org/janelia/stitching/ParseTilesImageList.java:102-103 | The guard as written rejects exactly when neither the pixel resolution nor the axis mapping has three entries. |
| ImageList.CheckArguments | src/main/java/org/janelia/stitching/ParseTilesImageList.java:102-103 | The corrected guard accepts only three-dimensional pixel resolution and axis mapping. |
| ImageList.CheckArgumentsAcceptsThreeDimensional | src/main/java/org/janelia/stitching/ParseTilesImageList.java:102-103 | The corrected guard accepts exactly when both are three-dimensional. Whatever it accepts, the guard as written accepts too. |
| ImageList.ArgumentGuardLetsTwoDimensionalThrough | src/main/java/org/janelia/stitching/ParseTilesImageList.java:102-103 | A two-dimensional pixel resolution with a three-entry mapping, and a three-entry resolution with a two-entry mapping, each pass the guard as written and fail the corrected one. |
| ImageList.ArgumentGuardsDiffer | src/main/java/org/janelia/stitching/ParseTilesImageList.java:102-103 | The guard as written accepts while the corrected one rejects exactly when one of the two has three entries and the other does not. Whatever the guard as written rejects, the corrected one rejects too. |
| ImageList.TileFilePathColumns | src/main/java/org/janelia/stitching/ParseTilesImageList.java:123-138 | Without a base folder, or with fewer than eight columns, the file name column is not read. With a base folder and all columns, the path column is not read. |
| ImageList.ObjectiveColumns | src/main/java/org/janelia/stitching/ParseTilesImageList.java:144-148 | The objective coordinates are the last three columns. |
| ImageList.ParseRow | src/main/java/org/janelia/stitching/ParseTilesImageList.java:121-154 | A line fails as malformed exactly when it has fewer than three columns. Every error carries the line's number. |
| ImageList.PositionFromLastThreeColumns | src/main/java/org/janelia/stitching/ParseTilesImageList.java:144-148 | Columns inserted before the last three do not change a tile's position. |
| ImageList.ParseUpToLines | src/main/java/org/janelia/stitching/ParseTilesImageList.java:117-166 | Reading succeeds exactly when every line after the header parses, giving one row per such line, in order. Otherwise the error is that of the first line that fails. |
| ImageList.ParseUpToErrorStays | src/main/java/org/janelia/stitching/ParseTilesImageList.java:119-166 | Once a line fails, reading further lines keeps that error. |
| ImageList.GroupIsByChannel | src/main/java/org/janelia/stitching/ParseTilesImageList.java:156-165 | A channel is a key exactly when some row has it. Its list holds the tiles of that channel's rows, in file order. |
| ImageList.ChannelIndexesConsecutive | src/main/java/org/janelia/stitching/ParseTilesImageList.java:159-164 | Within a channel, the k-th tile has index k, no size, and the given pixel resolution. |
| ImageList.GroupKeepsEveryRow | src/main/java/org/janelia/stitching/ParseTilesImageList.java:156-165 | The channel lists together hold exactly one tile per row. |
| ImageList.AddRow | src/main/java/org/janelia/stitching/ParseTilesImageList.java:156-165 | Adding one row's tile to the channel map gives the grouping of the rows including it. |
| ImageList.ReadImageList | src/main/java/org/janelia/stitching/ParseTilesImageList.java:113-167 | The reading loop returns the parse of the whole file: the grouping of its rows, or the first line's error. |
| ImageList.GridDifference | src/main/java/org/janelia/stitching/ParseTilesImageList.java:226-229 | The map holds exactly the axes on which the grid coordinates differ, each with the difference second minus first. |
| ImageList.SingleDifferenceIsGridAdjacent | src/main/java/org/janelia/stitching/ParseTilesImageList.java:230 | The test on the difference map holds exactly when the tiles are grid neighbours along `d`: they differ on that axis only, and by one. |
| ImageList.GridKeysAppend | src/main/java/org/janelia/stitching/ParseTilesImageList.java:224-236 | The grid-adjacent keys of a concatenation are those of the parts, concatenated. |
| ImageList.GridStep | src/main/java/org/janelia/stitching/ParseTilesImageList.java:224-235 | One pair of the verification loop either keeps the invariant (the grid neighbours seen so far are distinct classifier pairs, removed from the remaining set) or reports that this cannot hold. |
| ImageList.CheckGridAxis | src/main/java/org/janelia/stitching/ParseTilesImageList.java:223-238 | Succeeds exactly when the grid neighbours along `d` among the overlapping pairs are distinct and are exactly the classifier's adjacent pairs. The "extra pairs" failure means they are distinct but a strict subset. |
| ImageList.GridKeysPrefix | src/main/java/org/janelia/stitching/ParseTilesImageList.java:224-236 | The keys seen by a prefix of the loop are among all keys, and are distinct when all keys are. |
| ImageList.CheckGridAxes | src/main/java/org/janelia/stitching/ParseTilesImageList.java:195-239 | Succeeds exactly when the grid check, with the given adjacent-pair filter, passes on every axis. Otherwise it reports a grid mismatch on an axis that fails it. |
| ImageList.CheckFirstChannel | src/main/java/org/janelia/stitching/ParseTilesImageList.java:185-239 | Succeeds exactly when the first channel forms at most one connected component, has a tile, and passes the grid check on every axis of its first tile. |
| ImageList.Run | src/main/java/org/janelia/stitching/ParseTilesImageList.java:95-248 | Succeeds exactly when all checks pass, returning the metadata step's channel map. It fails with an argument error exactly when the corrected argument guard fails, and with a line error exactly when the guard passes but a line does not parse. |
| FusionLevels.FullFactor | src/main/java/org/janelia/stitching/PipelineFusionStepExecutor.java:101-103 | A level's full factor is at least 1, and at least the isotropic scaling. |
| FusionLevels.LevelGeometry | src/main/java/org/janelia/stitching/PipelineFusionStepExecutor.java:94-107 | Four fresh, pairwise distinct arrays holding the level's full factors, step factors, cell sizes and upscaled cell sizes. |
| FusionLevels.LevelFactors | src/main/java/org/janelia/stitching/PipelineFusionStepExecutor.java:103-106 | Every factor is at least 1. The in-plane step factor is 1 at level 0 and 2 after it. The Z step factor is the full Z factor. The upscaled size is the step factor times the cell size. |
| FusionLevels.CellSizesPositive | src/main/java/org/janelia/stitching/PipelineFusionStepExecutor.java:105 | Every cell size is at least 1, so the space partition is well defined. |
| FusionLevels.ZCellSpansLevel | src/main/java/org/janelia/stitching/PipelineFusionStepExecutor.java:105-106 | Let c be the single Z cell size and f the full Z factor. The upscaled Z cell spans at most c·2^level, and more than c·(2^level − f). It spans exactly c·2^level when f divides 2^level. |
| FusionLevels.ResetXy | src/main/java/org/janelia/stitching/PipelineFusionStepExecutor.java:243-247 | After an XY-only tier, the in-plane step factors become 1 and the in-plane upscaled sizes become the cell sizes. Z is unchanged, and upscaled = factor × cell size still holds on every axis. |
| FusionLevels.TwoDimensionalJobFailsAsWritten | src/main/java/org/janelia/stitching/PipelineFusionStepExecutor.java:127-141 | For a two-dimensional job, both tests on `downsampleFactors[2]` as written throw, while the guarded ones never choose the XY-only tier. For three dimensions, the readings agree. |
| FusionLevels.NoXyTierAtLevelZero | src/main/java/org/janelia/stitching/PipelineFusionStepExecutor.java:141 | Level 0 never uses an XY-only tier, so the previous level's cell size it reads always exists. |
| FusionLevels.Extremes | src/main/java/org/janelia/stitching/PipelineFusionStepExecutor.java:343-350 | The loop returns the minimum and maximum extent, starting from `Long.MAX_VALUE` and `Long.MIN_VALUE`. |
| FusionLevels.MinDimensionBounds | src/main/java/org/janelia/stitching/PipelineFusionStepExecutor.java:344-349 | The minimum is at most every extent and equal to one of them. |
| FusionLevels.MaxDimensionBounds | src/main/java/org/janelia/stitching/PipelineFusionStepExecutor.java:345-349 | The maximum is at least every extent and equal to one of them. |
| FusionLevels.ContinuesIff | src/main/java/org/janelia/stitching/PipelineFusionStepExecutor.java:359 | The loop goes on exactly when every axis of the level's extent is above 1 and some axis is above four times the fusion cell size. |
| FusionCells.CellPathFollowsExportTemplate | src/main/java/org/janelia/stitching/PipelineFusionStepExecutor.java:278-285 | A three-dimensional cell's file path, `level/z/y/x.tif`, is the export template `%1$d/%4$d/%3$d/%2$d.tif` filled with the level and the cell's indexes (line 364). |
| FusionCells.ExportTemplateText | src/main/java/org/janelia/stitching/PipelineFusionStepExecutor.java:364 | The template's parts render to the string the export metadata stores. |
| FusionCells.FuseCellSpec | src/main/java/org/janelia/stitching/PipelineFusionStepExecutor.java:260-316 | A cell is dropped exactly when no tile lies within it, or when some axis is smaller than its factor. A kept cell keeps its index and is written at the path of its grid indexes. When the tier downsamples, its position and its size are the truncated quotients of the old ones by the factors, and each size is between 1 and the old size. Otherwise its geometry is unchanged. |
| FusionCells.ShrinkAxis | src/main/java/org/janelia/stitching/PipelineFusionStepExecutor.java:267-269 | A size divided by its factor is non-positive exactly when the size is below the factor, and never exceeds the size. |
| FusionCells.PathIndexesLocateDownsampledCell | src/main/java/org/janelia/stitching/PipelineFusionStepExecutor.java:273-285 | The grid indexes in a downsampled cell's path are its new position divided by the cell size. |
| FusionCells.PresentMembers | src/main/java/org/janelia/stitching/PipelineFusionStepExecutor.java:318-319 | Removing the nulls keeps exactly the present results, and never lengthens the list. |
| FusionCells.KeptCellsMembers | src/main/java/org/janelia/stitching/PipelineFusionStepExecutor.java:256-319 | A tier's output holds exactly the fused forms of the cells that are not dropped, and is no longer than the partition. |
| FusionCells.TierStore.Save | src/main/java/org/janelia/stitching/PipelineFusionStepExecutor.java:333-340 | Saving a configuration stores it under its tier and leaves the rest of the store unchanged. |
| FusionCells.TierStore.WriteImage | src/main/java/org/janelia/stitching/PipelineFusionStepExecutor.java:313 | Writing a cell image stores it at its path and leaves the configurations unchanged. |
| FusionCells.FuseTier | src/main/java/org/janelia/stitching/PipelineFusionStepExecutor.java:259-319 | Returns the kept cells of the partition in order. The images become the old ones updated with `WrittenImages`, and no configuration is stored. |
| FusionCells.WrittenImagesKeys | src/main/java/org/janelia/stitching/PipelineFusionStepExecutor.java:278-319 | A tier writes an image at exactly the kept cells' paths. |
| FusionCells.WrittenImageAt | src/main/java/org/janelia/stitching/PipelineFusionStepExecutor.java:286-313 | A kept cell whose path no later kept cell reuses ends with its own fused image, computed from the source tiles within it. |
| Fusion.BuildXyTier | src/main/java/org/janelia/stitching/PipelineFusionStepExecutor.java:147-241 | Loads the level's XY-only tier if stored. Otherwise, when the last tier is stored, it builds the tier from it: the last tier's box cut into cells of the previous cell size × {2,2,1}, fused with factors {2,2,1}. Otherwise it fails with the missing configuration. On success it stores exactly that tier. Images are written exactly when it builds the tier, and are then the images of its cells. |
| Fusion.XyTierImagesKeys | src/main/java/org/janelia/stitching/PipelineFusionStepExecutor.java:175-241 | Building the XY-only tier writes an image at exactly its cells' paths. |
| Fusion.TiersComposeToStep | src/main/java/org/janelia/stitching/PipelineFusionStepExecutor.java:175-247 | The XY-only tier's {2,2,1} followed by the reset main-tier factors gives the level's step factors. The main tier's cells are its factors × cell sizes. |
| Fusion.FuseMainTier | src/main/java/org/janelia/stitching/PipelineFusionStepExecutor.java:252-319 | The main tier's cells: the source's box cut into cells of the upscaled size, fused, and with the empty cells dropped. The images written are those of these cells. No configuration is stored. |
| Fusion.MainTierImagesKeys | src/main/java/org/janelia/stitching/PipelineFusionStepExecutor.java:252-319 | Building a level's main tier writes an image at exactly its cells' paths. |
| Fusion.LevelCellsFollowExportTemplate | src/main/java/org/janelia/stitching/PipelineFusionStepExecutor.java:278-285 | Every cell of a three-dimensional level is written where the channel's export template, filled with the level and some grid indexes, points. |
| Fusion.ProcessLevel | src/main/java/org/janelia/stitching/PipelineFusionStepExecutor.java:111-341 | A stored level is resumed unchanged, with the `-xy` tier as its temporary tier when the corrected test says so. Otherwise the XY-only tier is used exactly when the corrected test says so. The level fails exactly when that tier and the last tier are both missing. An empty main tier is reported and not stored. A non-empty one is stored under the level and returned. Nothing stored before is lost, and only the level's two tiers are added. The images gain exactly those of the tiers it builds: none for a resumed level, the XY-only tier's when built, and the main tier's. Without the XY-only tier, only the level's own tier can be added. |
| Fusion.AdvanceLevel | src/main/java/org/janelia/stitching/PipelineFusionStepExecutor.java:94-353 | One pass of the loop body up to the extent test. It fails, with the missing configuration's error, exactly when the level is not stored, needs the XY-only tier, that tier is not stored, and there is no stored previous tier to build from. A level built afresh leaves its next tier in the store. An empty level leaves the export maps as they were. A produced level is recorded with its full factors and cell size, and the run's progress invariant moves on one level. |
| Fusion.LevelTiersAdded | src/main/java/org/janelia/stitching/PipelineFusionStepExecutor.java:111-341 | Storing at most a level's two tiers keeps the earlier levels stored, and adds only this channel's tiers up to this level. |
| Fusion.ContinueNext | src/main/java/org/janelia/stitching/PipelineFusionStepExecutor.java:343-359 | A stored level that passes the extent test extends the run of levels that passed it. |
| Fusion.DecideLevel | src/main/java/org/janelia/stitching/PipelineFusionStepExecutor.java:321-359 | After an empty level the channel stops, with the level not stored. Otherwise the level's extremes decide. It either goes on with the level's cells, or stops with those extremes, which fail the extent test. Either way the channel's completion predicate holds when it stops. |
| Fusion.ChannelLevel | src/main/java/org/janelia/stitching/PipelineFusionStepExecutor.java:92-359 | One pass of the do-while loop keeps the run's invariant, or ends with the channel's completion predicate. It fails exactly under the same condition on the store before the pass as `Fusion.AdvanceLevel`. A continuing level built afresh passes on a tier that is in the store. |
| Fusion.FreshLevelSucceeds | src/main/java/org/janelia/stitching/PipelineFusionStepExecutor.java:111-173 | When the store held none of the channel's tiers before the run, the current level is not stored yet and does not fail. Level 0 needs no XY-only tier, and every later level finds the tier its predecessor stored. |
| Fusion.RunChannel | src/main/java/org/janelia/stitching/PipelineFusionStepExecutor.java:84-372 | When a channel succeeds, it produces at most `maxLevels` levels and the export metadata: the channel's template, the full-resolution dimensions, and every built level's factors and cell size. Those levels are stored, and every level that did not end the loop passed the extent test. The loop stopped at an empty, unstored level, at a level small enough on some axis, or at the bound. On a store that holds none of the channel's tiers, the channel always succeeds: a configuration is loaded only when one was stored. |
| Fusion.Run | src/main/java/org/janelia/stitching/PipelineFusionStepExecutor.java:79-383 | The channels run in order, and the first failure ends the run. On success there is one export per channel. Each channel's levels are recorded and stored in the final store, every intermediate level passed the extent test, and the channel stopped for one of the source's reasons. No configuration stored before is lost. On a store that holds no tier of any of the channels, the run always succeeds. |
| Fusion.ChannelDoneKept | src/main/java/org/janelia/stitching/PipelineFusionStepExecutor.java:79-383 | A channel's completed result still holds after later channels store only their own tiers. |

## Left out

- Spark, files and printing:
  - Spark parallelism and the broadcast of the flat-field correction are not modelled. The per-cell map of a tier is a sequential loop whose result keeps the cells' order, as `collect` does.
  - Files become a store of configurations and images (`TierStore`). A configuration or image that fails to save is treated as saved, because the source only prints the exception.
  - The saved export metadata list, the saved `_adj` shifts file and the per-channel JSON files written by `ParseTilesImageList` are not modelled.
  - `System.out` output is not modelled.
- Floating point:
  - Voxel-dimension normalisation and `Math.round` are not modelled. The isotropic scaling per level and axis, and the single cell size, are integer inputs of `FusionLevels.Scaling`.
  - The objective-to-pixel conversion, which uses the axis mapping and pixel resolution, is a helper of `ImageList.Env` that yields integer positions.
  - The overlap statistics printed at `ParseTilesImageList.java:199-220` are not modelled.
  - The image type, transform and voxel dimensions of the export metadata are not modelled.
- Code the core calls but does not define becomes parameters, with only the facts the core needs:
  - path and file-name helpers, the channel-number regular expression, and command-line parsing;
  - `TileOperations` (boundaries, space partition, tiles within a cell, overlapping pairs) and the fusion kernels, where a cell's image is an opaque value;
  - the moving-box transform, `isAdjacent` and the minimum tile dimensions;
  - `CheckConnectedGraphs`, `Utils.getTileCoordinates` and the metadata step.
- The image-list lines reach the model already split into columns. The columns are those Java's `String.split(",")` gives, which drops trailing empty columns, so a line such as `a,b,,` has two columns and fails `ImageList.ParseRow`'s three-column rule.
- FilterAdjacent.FilterAdjacentPairs: the pair filter requires every pair to overlap in three or more dimensions (`AllOverlapping3D`). The source's condition at `FilterAdjacentShiftsMulti.java:203-210` short-circuits the same way as the command's: it silently drops a two-dimensional pair whose overlap is short on both axes, and throws on the other two-dimensional pairs. Those inputs are outside the model of the filter; the command's short-circuit model is `FilterAdjacent.SkipCondition`.
- ImageList.CheckGridAxes: the adjacent-pair filter is a parameter (`Steps.adjacentAlong`), because `ParseTilesImageList.java:197` calls `FilterAdjacentShifts.filterAdjacentPairs`, and `FilterAdjacentShifts` is not part of this model. The model states the grid check relative to whatever that filter returns; it does not assume it agrees with `FilterAdjacent.FilterAdjacentPairs`.
- FilterAdjacent.Peak: a peak is modelled as its tile pair and its validity flag only. `swap()` is defined in `SerializablePairWiseStitchingResult`, which is not part of this model; its effect on the stored offset, cross-correlation and other fields is not modelled, only the exchange of the two tiles.
- FusionLevels.WellScaled: the model assumes every single cell size is at least 1 and every isotropic scaling at most 2^level. The first does not follow from the source: `Math.round(fusionCellSize / normalizedVoxelDimensions[d])` at `PipelineFusionStepExecutor.java:102` can be 0 for a small cell size or a large voxel, and line 280 then divides by a zero cell size. The second relies on `Utils.normalizeVoxelDimensions`, which is not part of this model.
- Configuration names are modelled as (channel, level, is-XY-tier) keys rather than as file paths built by `addFilenameSuffix`.
- ImageList.CheckGridAxis: the `HashSet` of `TilePair` at `ParseTilesImageList.java:223` depends on `TilePair.equals` and `hashCode`, which are not part of this model. The set is modelled by the unordered pair of tile indexes (`PairKey`), so two pairs of the same tiles count as one.
- Fusion.RunChannel: the do-while loop is bounded by a `maxLevels` parameter, which the source does not have. For a stop reason other than the bound, the model states the source's exit condition.
- Fusion.RunChannel: the per-level partition and dropping of cells is stated by `Fusion.ProcessLevel`, not restated for the whole channel.
- Fusion.RunChannel: when the store already holds some of the channel's tiers, the whole-channel contract states no exact failure condition. Each level's exact condition is stated by `Fusion.ChannelLevel`, and success is guaranteed for a store without the channel's tiers.
- Fusion.Run: likewise, success is guaranteed for a store without any of the channels' tiers, and a failure otherwise is stated per level by `Fusion.ChannelLevel`.
- Java `int` and `long` overflow is not modelled: integers are unbounded. Extents are taken to be `long` values where the extremes start from `Long.MAX_VALUE` and `Long.MIN_VALUE`.
- Jobs of four or more dimensions are not modelled. The job record allows only two or three.
- The `pixelResolution.clone()` per tile is modelled as sharing the same value. Sequences are values, so this is indistinguishable.
- `HistogramsProvider`, `ChooseBestPeak` and the test `SimilarityModelConfigurationTest` are not part of this model.

## Findings

| source | as written | input that shows it | evidently intended | confidence | as-written member | corrected member |
|---|---|---|---|---|---|---|
| src/main/java/org/janelia/stitching/ParseTilesImageList.java:102 | The guard throws only when both `pixelResolution` and `axisMappingStr` are not three-dimensional (`&&`). | pixel resolution [0.097, 0.097] with axis mapping ["-y", "x", "z"] passes the guard; line 152 then reads `pixelResolution[2]` | Reject when either is not three-dimensional (`\|\|`), as the message says | not executed | ImageList.CheckArgumentsAsWritten, ImageList.ArgumentGuardLetsTwoDimensionalThrough, ImageList.ArgumentGuardsDiffer | ImageList.CheckArguments, ImageList.CheckArgumentsAcceptsThreeDimensional, ImageList.Run |
| src/main/java/org/janelia/stitching/PipelineFusionStepExecutor.java:141 | `downsampleFactors[2] == 1` is evaluated before `job.getDimensionality() < 3`. Line 127 reads `downsampleFactors[2]` with no guard at all. | any two-dimensional job: `downsampleFactors` has length 2, so level 0 throws `ArrayIndexOutOfBoundsException` | Test the dimensionality first, so that a two-dimensional job never uses the XY-only tier | not executed | FusionLevels.UsesXyTierAsWritten, FusionLevels.ResumesFromXyAsWritten, FusionLevels.TwoDimensionalJobFailsAsWritten | FusionLevels.UsesXyTier, FusionLevels.ResumesFromXy |
| src/main/java/org/janelia/stitching/CheckSubTileConfigurationCoplanarity.java:63 | `subgroup.getValue(0) != subgroup.getValue(1)` compares two boxed `Long`s by identity. Equal values outside [-128, 127] are different objects. | corners (0,200,200), (1,200,200), (0,300,300), (1,300,300): a 45-degree plane, but every corner is seen as off the diagonal and the method returns false | Compare the values (`longValue()` or `equals`) | not executed | Coplanarity.CoplanarityAsWritten, Coplanarity.BoxedComparisonRejectsTiltedPlane | Coplanarity.Coplanarity, Coplanarity.CheckCoplanarity |
