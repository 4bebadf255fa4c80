# PixelStacker core, modelled in Dafny

PixelStacker turns a picture into a Minecraft pixel-art build. Every pixel
is painted by a *material combination*, which is one or two stacked blocks.
This project models the parts of PixelStacker that decide which
combination paints a colour, how the picture is quantised first, and how
the finished canvas is cut into tiles for display. It then proves what those
parts promise.

- `ColorMapper` (kd_tree_mapper.dfy) models the colour-to-material matcher
  `KdTreeMapper` as a class. Its state is the exact-colour cache, the
  viewing orientation, the palette and the nearest-neighbour index. The
  index query is given by its specification: the seeded entries stably
  sorted by squared RGB distance and cut to ten. The choice among those ten
  is the first entry of least application distance.
- `Ranking` (ranking.dfy) holds the list vocabulary the matcher relies on:
  a stable sort by key (LINQ `OrderBy`), `Take`, and the first minimum
  (`MinBy`). It also proves their order facts.
- `QuantizerEngine` (quantizer_engine.dfy) maps algorithm names to
  quantizers and builds the option lists each algorithm offers. It also
  models `RenderImage`: resolve the options, validate the settings, pick
  the colour cache, the ditherer, the worker count and the colour count,
  run the quantizer, then merge the source's transparency back in.
- `Materials` (material_combination.dfy) covers the combination value
  type. It has the null-checking constructors and the identity-based
  `IsMultiLayer`. It also has the ID-based, order-sensitive equality, the
  hash key, `ToString` and the image selection.
- `RenderedCanvasPainter` (rendered_canvas_painter_tiling.dfy) covers the
  tile pyramid:
  - chunk counts by ceiling division;
  - full-size chunks, except a trimmed last column and last row;
  - the do-while loop that adds layers at scales 1/2^l;
  - which layer-0 chunks a downsampled tile draws.

  The grids are `array2`s filled in nested loops, as in the source.
- `Canvas` (rendered_canvas.dfy) covers the rendered canvas record. It has
  its completeness test, its size and its default values.
- `Points` (px_point.dfy) covers the mutable point class `PxPoint`, with its
  constructors and `Clone`.
- `Drawing`, `Wrappers` and `IntMath` are shared vocabulary: colours and
  bitmaps, `Option`/`Result`, and integer facts.

Exceptions become `Result` errors. A null reference property becomes
`None`. Code that the core calls but that is not part of this model becomes
a parameter:
- a combination's average colour and its colour distance (`KdTreeMapper`'s
  two constant fields);
- each quantizer's flags, the settings validator, the developer-mode
  switch and the quantization run (`QuantizerEngine.Collaborators`);
- the material catalogue lookup (`Materials.CreateFromIds`).

`Constants.TextureSize` is the positive parameter `textureSize`.

## Model

| member | source | states |
|---|---|---|
| ColorMapper.KdTreeMapper.constructor | src/PixelStacker.Core/Collections/ColorMapper/KdTreeMapper.cs:14-19 | A new matcher is not seeded, its cache is empty and its palette is null; its invariant holds. |
| ColorMapper.KdTreeMapper.SetSeedData | src/PixelStacker.Core/Collections/ColorMapper/KdTreeMapper.cs:21-38 | The cache is emptied, so no earlier answer survives. The palette (possibly null) and the orientation are recorded and the matcher is seeded. The index holds one entry per combination, in order, keyed by the RGB of that combination's average colour in the chosen orientation. A null list fails after the rest of the state is replaced, leaving a seeded matcher with an empty index. |
| ColorMapper.KdTreeMapper.FindBestMatch | src/PixelStacker.Core/Collections/ColorMapper/KdTreeMapper.cs:40-55 | A cached colour gets its cached answer and the cache is unchanged. An uncached colour with alpha below 32 gets the palette's air entry and is not cached. Any other colour gets the nearest-match answer, and the cache gains exactly that colour with that answer. The answer always equals a fresh computation, and the cache invariant is kept: no transparent key, and every entry equals a fresh computation. |
| ColorMapper.KdTreeMapper.FindBestMatchTwice | src/PixelStacker.Core/Collections/ColorMapper/KdTreeMapper.cs:44-53 | Two lookups of one colour with no seeding between them return the same result. After a successful opaque lookup the colour is cached with that answer. |
| ColorMapper.KdTreeMapper.FindBestMatches | src/PixelStacker.Core/Collections/ColorMapper/KdTreeMapper.cs:63-75 | The cache is never read or written. A transparent colour gets the one-element list holding air, whatever the requested count. Any other colour gets the shortlist ordered by application distance and cut to the requested count. |
| ColorMapper.KdTreeMapper.IsSeeded | src/PixelStacker.Core/Collections/ColorMapper/KdTreeMapper.cs:77 | Seeded means the index exists. The constructor leaves it false and every `SetSeedData` makes it true. |
| ColorMapper.KdTreeMapper.Resolve | src/PixelStacker.Core/Collections/ColorMapper/KdTreeMapper.cs:49-51 | The uncached answer for a colour in the current state. `FindBestMatch` always returns it, and the cache invariant holds every cached answer to it. |
| ColorMapper.SelfMatch | src/PixelStacker.Core/Collections/ColorMapper/KdTreeMapper.cs:49-51 | After seeding, an opaque combination looked up by its own average colour is found. This holds when no two combinations share an average RGB point and the application distance ranks every other combination strictly farther. |
| ColorMapper.OwnEntryHeadsShortlist | src/PixelStacker.Core/Collections/ColorMapper/KdTreeMapper.cs:50 | With distinct seeded points, a combination's own entry is the unique nearest one to its average colour, so it heads the shortlist. |
| ColorMapper.Shortlist | src/PixelStacker.Core/Collections/ColorMapper/KdTreeMapper.cs:50 | The ten nearest seeded entries by squared RGB distance, nearest first. Its properties are `ShortlistIsNearest` and `ShortlistIsOrdered`. |
| ColorMapper.NearestMatch | src/PixelStacker.Core/Collections/ColorMapper/KdTreeMapper.cs:50-51 | The first shortlisted combination of least application distance, or the empty-index error. Its properties are `NearestMatchIsFirstMinimum` and `SelfMatch`. |
| ColorMapper.BestMatch | src/PixelStacker.Core/Collections/ColorMapper/KdTreeMapper.cs:49-51 | A transparent colour gives the palette's air entry, a null palette or index gives the unseeded error, and any other colour gives `NearestMatch`. |
| ColorMapper.RankedMatches | src/PixelStacker.Core/Collections/ColorMapper/KdTreeMapper.cs:68-71 | The shortlist ordered by application distance, cut to the requested count, reduced to combinations. Its properties are `RankedMatchesAreOrdered`. |
| ColorMapper.IndexEntries | src/PixelStacker.Core/Collections/ColorMapper/KdTreeMapper.cs:31-36 | The index has one entry per combination, and entry i holds combination i keyed by the RGB of its average colour. |
| ColorMapper.AirLookup | src/PixelStacker.Core/Collections/ColorMapper/KdTreeMapper.cs:49 | The air entry is found exactly when the palette holds the air identifier; otherwise the lookup fails with a missing key. |
| ColorMapper.ShortlistIsNearest | src/PixelStacker.Core/Collections/ColorMapper/KdTreeMapper.cs:50 | The shortlist holds min(10, index size) entries taken from the index. Every entry left out is at least as far from the colour, in squared RGB distance, as every entry kept. |
| ColorMapper.ShortlistIsOrdered | src/PixelStacker.Core/Collections/ColorMapper/KdTreeMapper.cs:50 | The shortlist lists its entries nearest first. |
| ColorMapper.NearestMatchIsFirstMinimum | src/PixelStacker.Core/Collections/ColorMapper/KdTreeMapper.cs:50-51 | The index answer fails exactly when the index is empty. Otherwise it is a shortlisted combination whose application distance is no greater than that of any shortlisted entry, and every earlier entry is strictly farther. So the first minimum wins. |
| ColorMapper.RankedMatchesAreOrdered | src/PixelStacker.Core/Collections/ColorMapper/KdTreeMapper.cs:68-71 | The ranked list has length min(max(requested, 0), shortlist size), and its application distances never decrease. The entries it keeps are a sub-multiset of the shortlist, and none is farther, by application distance, than any shortlisted entry left out. Its head is the `FindBestMatch` answer. |
| ColorMapper.RankedMatchesKeepNearest | src/PixelStacker.Core/Collections/ColorMapper/KdTreeMapper.cs:68-71 | The ranked list is the combinations of the kept entries. Those entries are a sub-multiset of the shortlist, and none is farther, by application distance, than a shortlisted entry left out. |
| ColorMapper.CombosOf | src/PixelStacker.Core/Collections/ColorMapper/KdTreeMapper.cs:71 | Selecting the values keeps the length and maps entry i to its combination. |
| Ranking.FirstMinIndex | src/PixelStacker.Core/Collections/ColorMapper/KdTreeMapper.cs:51 | The chosen index has a key no greater than any other, and a key strictly smaller than every earlier one. |
| Ranking.FirstMinUnique | src/PixelStacker.Core/Collections/ColorMapper/KdTreeMapper.cs:51 | Only one index can be the first minimum. |
| Ranking.SortBy | src/PixelStacker.Core/Collections/ColorMapper/KdTreeMapper.cs:70 | Sorting keeps the length and the multiset of elements: the result is a permutation. |
| Ranking.SortByIsSorted | src/PixelStacker.Core/Collections/ColorMapper/KdTreeMapper.cs:70 | The sorted list's keys never decrease. |
| Ranking.InsertByKeepsSorted | src/PixelStacker.Core/Collections/ColorMapper/KdTreeMapper.cs:70 | Inserting into a sorted list keeps it sorted. |
| Ranking.InsertBy | src/PixelStacker.Core/Collections/ColorMapper/KdTreeMapper.cs:70 | Insertion adds exactly the one element. |
| Ranking.SortByHeadIsFirstMin | src/PixelStacker.Core/Collections/ColorMapper/KdTreeMapper.cs:51-70 | The head of the stable sort is the first minimum, so `OrderBy(...).First()` agrees with `MinBy`. |
| Ranking.Take | src/PixelStacker.Core/Collections/ColorMapper/KdTreeMapper.cs:71 | `Take(n)` is the prefix of length min(max(n, 0), length). |
| Ranking.TakeSortedHead | src/PixelStacker.Core/Collections/ColorMapper/KdTreeMapper.cs:70-71 | A non-empty prefix of the sorted list starts with the first minimum. |
| Ranking.TakeSortedIsSmallest | src/PixelStacker.Core/Collections/ColorMapper/KdTreeMapper.cs:50 | A prefix of the sorted list is a sub-multiset of the input, and no element left out has a smaller key than an element kept. |
| QuantizerEngine.GetQuantizerByAlgorithmName | src/PixelStacker.Core/Engine/Quantizer/QuantizerEngine.cs:38-64 | A null or empty name is an argument-null error. A name outside the eight is an out-of-range error carrying that name. A name succeeds exactly when it is one of the eight, and it selects the quantizer of that name. |
| QuantizerEngine.AlgorithmNameRoundTrip | src/PixelStacker.Core/Engine/Quantizer/QuantizerEngine.cs:43-60 | Each quantizer is reached by its own name and by no other. |
| QuantizerEngine.GetQuantizerAlgorithmOptions | src/PixelStacker.Core/Engine/Quantizer/QuantizerEngine.cs:66-119 | The options are built exactly when the name selects a quantizer; an unknown name fails as the name lookup does. The four lists are filled as follows: the colour caches exactly for a cache-based quantizer; the ditherers exactly for a non-Wu quantizer; the parallelism levels exactly when parallel work is allowed; the colour counts exactly for a quantizer other than Uniform, Neural and OptimalPalette. |
| QuantizerEngine.ColorCacheListContents | src/PixelStacker.Core/Engine/Quantizer/QuantizerEngine.cs:72-77 | Three colour caches, in the order Euclidean, locality-sensitive hash, octree. |
| QuantizerEngine.DithererListContents | src/PixelStacker.Core/Engine/Quantizer/QuantizerEngine.cs:82-99 | Fifteen ditherer entries. Exactly two of them, "No dithering" and the error-diffusion separator at positions 0 and 5, choose no ditherer. |
| QuantizerEngine.ParallelismLevelsArePowersOfTwo | src/PixelStacker.Core/Engine/Quantizer/QuantizerEngine.cs:104-107 | The parallelism levels are 2^0 to 2^6. |
| QuantizerEngine.ColorCountsArePowersOfTwo | src/PixelStacker.Core/Engine/Quantizer/QuantizerEngine.cs:112-115 | The colour counts are 2^1 to 2^8. |
| QuantizerEngine.LookupOption | src/PixelStacker.Core/Engine/Quantizer/QuantizerEngine.cs:138-142 | Indexing a null list is a null-reference error. Otherwise the lookup succeeds exactly when the key is listed, and the value it returns is listed under that key. A missing key is a key-not-found error. |
| QuantizerEngine.ResolveOptions | src/PixelStacker.Core/Engine/Quantizer/QuantizerEngine.cs:130 | Given options are used as they are; absent ones are derived from the algorithm name. `PrepareQuantization` reports its failure. |
| QuantizerEngine.WorkerCount | src/PixelStacker.Core/Engine/Quantizer/QuantizerEngine.cs:143 | The requested parallelism when the quantizer allows it, one otherwise. Its property is `PlannedWorkerCount`. |
| QuantizerEngine.MergePixel | src/PixelStacker.Core/Engine/Quantizer/QuantizerEngine.cs:153-157 | A source pixel below the alpha threshold becomes transparent; any other takes the quantised pixel. Its properties are `MergeAlpha` and `MergedTransparencyFollowsSource`. |
| QuantizerEngine.FindKey | src/PixelStacker.Core/Engine/Quantizer/QuantizerEngine.cs:138-142 | The lookup succeeds exactly when some entry has the key, and it returns a value listed under that key. |
| QuantizerEngine.PrepareQuantization | src/PixelStacker.Core/Engine/Quantizer/QuantizerEngine.cs:130-144 | A failure to derive the options surfaces as it is. Settings the validator rejects are an invalid-settings error; the developer-mode switch decides whether the validator is strict. Past validation, a failed name lookup, colour-cache lookup (for a cache-based quantizer) or ditherer lookup is the result, in that order, and when none fails there is a plan. A plan means the following: the settings passed validation; the quantizer is the one named; a colour cache is chosen exactly for a cache-based quantizer, and it is the listed one; the ditherer is the listed one; the worker count is the requested one when parallel work is allowed and 1 otherwise; the colour count is the requested one. |
| QuantizerEngine.MergeAlpha | src/PixelStacker.Core/Engine/Quantizer/QuantizerEngine.cs:153-157 | The output has the source's shape. A pixel whose source alpha is below 32 is fully transparent, and every other pixel is the quantised pixel at the same coordinates. |
| QuantizerEngine.MergedTransparencyFollowsSource | src/PixelStacker.Core/Engine/Quantizer/QuantizerEngine.cs:153-157 | When the quantiser emits only opaque pixels, an output pixel is transparent exactly where the source pixel is. |
| QuantizerEngine.RenderImage | src/PixelStacker.Core/Engine/Quantizer/QuantizerEngine.cs:127-170 | Preparation failures surface unchanged. Once prepared, a requested cancellation yields the cancellation error, and a cancellation error implies that one was requested. Without cancellation, a failed quantiser run is a quantization error, an image of another shape is a size error, and an image of the source's shape gives success. A success is that image with the source's transparency merged in, pixel by pixel. |
| QuantizerEngine.InvalidSettingsNeverQuantize | src/PixelStacker.Core/Engine/Quantizer/QuantizerEngine.cs:130-132 | Invalid settings are rejected before any quantisation: the result is an invalid-settings error, whichever quantiser run is plugged in. |
| QuantizerEngine.PlannedWorkerCount | src/PixelStacker.Core/Engine/Quantizer/QuantizerEngine.cs:102-143 | With derived options, a quantizer that does not allow parallel work runs on one worker and is offered no parallelism list. One that allows it runs on the requested count and is offered the levels 1 to 64. |
| QuantizerEngine.WuWithDerivedOptionsHasNoDithererList | src/PixelStacker.Core/Engine/Quantizer/QuantizerEngine.cs:80-142 | With derived options and valid settings, Wu's algorithm fails at the ditherer lookup, because its options carry no ditherer list. |
| Materials.Create | src/PixelStacker/PixelStacker.Logic/Model/MaterialCombination.cs:20-27 | Construction succeeds exactly when both materials are non-null. A null bottom is reported first, then a null top. On success the materials fill their slots, and the result is multi-layer exactly when they are different objects. |
| Materials.CreateSingle | src/PixelStacker/PixelStacker.Logic/Model/MaterialCombination.cs:18-24 | One material fills both slots, so the result is never multi-layer. A null material is reported as a null bottom. |
| Materials.CreateFromIds | src/PixelStacker/PixelStacker.Logic/Model/MaterialCombination.cs:15-16 | Succeeds exactly when both identifiers resolve, and fills the slots with the resolved materials. An unresolved bottom is reported first. |
| Materials.CreateFromId | src/PixelStacker/PixelStacker.Logic/Model/MaterialCombination.cs:13 | Succeeds exactly when the identifier resolves. The resolved material fills both slots, so the result is not multi-layer. |
| Materials.GetImage | src/PixelStacker/PixelStacker.Logic/Model/MaterialCombination.cs:38 | The side rendering when viewed from the side, the top rendering otherwise. |
| Materials.MaterialCombination.IsMultiLayer | src/PixelStacker/PixelStacker.Logic/Model/MaterialCombination.cs:24 | Multi-layer means the two slots hold different material objects. Its properties are `Create`, `CreateSingle` and `MultiLayerIsByIdentity`. |
| Materials.Equals | src/PixelStacker/PixelStacker.Logic/Model/MaterialCombination.cs:55-63 | False against null; otherwise the top identifiers and the bottom identifiers agree. Its properties are `EqualsIsEquivalence`, `EqualsIsOrderSensitive` and `HashKeyIdentifiesCombination`. |
| Materials.EqualsObject | src/PixelStacker/PixelStacker.Logic/Model/MaterialCombination.cs:65-69 | Only a combination can be equal, and then as `Equals` says. Its property is `EqualsObjectAgrees`. |
| Materials.HashKey | src/PixelStacker/PixelStacker.Logic/Model/MaterialCombination.cs:71-74 | The top identifier, "::", the bottom identifier. Its properties are `EqualsImpliesSameHashKey` and `HashKeyIdentifiesCombination`. |
| Materials.ToString | src/PixelStacker/PixelStacker.Logic/Model/MaterialCombination.cs:76-79 | The bottom identifier, "::", the top identifier. Its property is `ToStringIsSwappedHashKey`. |
| Materials.EqualsIsEquivalence | src/PixelStacker/PixelStacker.Logic/Model/MaterialCombination.cs:55-63 | Equality is reflexive, symmetric and transitive. |
| Materials.EqualsObjectAgrees | src/PixelStacker/PixelStacker.Logic/Model/MaterialCombination.cs:65-69 | The object overload agrees with the typed one on combinations. It is false for null and for any other object. |
| Materials.EqualsIsOrderSensitive | src/PixelStacker/PixelStacker.Logic/Model/MaterialCombination.cs:55-63 | (A, B) equals (B, A) exactly when A and B have the same identifier. |
| Materials.MultiLayerIsByIdentity | src/PixelStacker/PixelStacker.Logic/Model/MaterialCombination.cs:24-63 | Two distinct material objects with one identifier form a multi-layer combination. That combination is nevertheless equal to the single-layer one. |
| Materials.EqualsImpliesSameHashKey | src/PixelStacker/PixelStacker.Logic/Model/MaterialCombination.cs:71-84 | Equal combinations have equal hash keys, so they hash alike. |
| Materials.HashKeyIdentifiesCombination | src/PixelStacker/PixelStacker.Logic/Model/MaterialCombination.cs:55-74 | When no top identifier contains ':', two hash keys are equal exactly when the combinations are equal. |
| Materials.ToStringIsSwappedHashKey | src/PixelStacker/PixelStacker.Logic/Model/MaterialCombination.cs:71-79 | `ToString` is the hash key of the swapped combination: bottom identifier, "::", top identifier. |
| RenderedCanvasPainter.ChunkCountIsCeiling | src/PixelStacker.Logic/IO/Image/RenderedCanvasPainter.Tiling.cs:155-156 | The chunk count is the ceiling of size / chunk size: chunk k exists exactly when it starts inside the image. |
| RenderedCanvasPainter.ChunkCount | src/PixelStacker.Logic/IO/Image/RenderedCanvasPainter.Tiling.cs:155-156 | The quotient plus one for a remainder. Its property is `ChunkCountIsCeiling`. |
| RenderedCanvasPainter.Geometry | src/PixelStacker.Logic/IO/Image/RenderedCanvasPainter.Tiling.cs:153-161 | The chunk counts, the destination chunk size and the trims deltaX and deltaY of one layer. Its properties are `AxisLayout`, `DestinationChunkSize` and `ScaledSizeWithinChunks`. |
| RenderedCanvasPainter.CalculateChunkSizesForLayer | src/PixelStacker.Logic/IO/Image/RenderedCanvasPainter.Tiling.cs:149-177 | A new grid with one cell per chunk in each direction. The cell at (x, y) holds its column's width and its row's height. Every column but the last is one full chunk wide, and the last gives back the trim deltaX; rows likewise with deltaY. |
| RenderedCanvasPainter.AxisLayout | src/PixelStacker.Logic/IO/Image/RenderedCanvasPainter.Tiling.cs:153-171 | A destination chunk is 38 texture widths. The trim is at least zero and at most one chunk, so no chunk is larger than full size and none is negative. The chunk extents along an axis add up to textureSize * size / scaleDivide. |
| RenderedCanvasPainter.DestinationChunkSize | src/PixelStacker.Logic/IO/Image/RenderedCanvasPainter.Tiling.cs:153-154 | At every scale a destination chunk is 38 texture widths: the scale divides out exactly. |
| RenderedCanvasPainter.ScaledSizeWithinChunks | src/PixelStacker.Logic/IO/Image/RenderedCanvasPainter.Tiling.cs:155-161 | The scaled image size is at most the chunk count times a full chunk, and for a non-empty grid at least one chunk fewer. So deltaX and deltaY lie between zero and one chunk. |
| RenderedCanvasPainter.ExtentSumOfFullChunks | src/PixelStacker.Logic/IO/Image/RenderedCanvasPainter.Tiling.cs:164-166 | All chunks before the last are full size, so the first k of them add up to k full chunks. |
| RenderedCanvasPainter.LastChunkIsNonEmpty | src/PixelStacker.Logic/IO/Image/RenderedCanvasPainter.Tiling.cs:155-166 | For a non-empty canvas, at scales no coarser than one pixel per block, the last column is at least one pixel wide. |
| RenderedCanvasPainter.LastChunkCanBeEmpty | src/PixelStacker.Logic/IO/Image/RenderedCanvasPainter.Tiling.cs:155-166 | A canvas 1217 blocks wide with 16-pixel textures has, at 1/32 scale, two columns, and the last is zero pixels wide. |
| RenderedCanvasPainter.CalculateChunkSizes | src/PixelStacker.Logic/IO/Image/RenderedCanvasPainter.Tiling.cs:179-199 | There is at least one layer and at most max(1, maxLayers). Layer l is the grid at scale 1/2^l. Every layer but the last has more than two chunks in both directions. The last layer has at most two chunks in some direction, or it is layer number max(1, maxLayers). |
| RenderedCanvasPainter.Layer0ChunksOfTile | src/PixelStacker.Logic/IO/Image/RenderedCanvasPainter.Tiling.cs:110-124 | Downsampled tile (x, y) draws exactly the layer-0 chunks (sd*x+i, sd*y+j) with 0 <= i, j < sd that lie inside the layer-0 grid. Each is drawn once, in column-major order. |
| RenderedCanvasPainter.LayersNest | src/PixelStacker.Logic/IO/Image/RenderedCanvasPainter.Tiling.cs:115-156 | Tile column x exists at scale 1/sd exactly when layer-0 column sd*x exists. Every layer-0 column a lies in tile column a / sd, which exists. So every downsampled tile draws something and every layer-0 chunk is drawn. |
| RenderedCanvasPainter.TileColumnExists | src/PixelStacker.Logic/IO/Image/RenderedCanvasPainter.Tiling.cs:115-156 | Tile column x exists at scale 1/sd exactly when the first layer-0 column it covers exists. |
| Canvas.RenderedCanvas.Width | src/PixelStacker.Logic/Model/RenderedCanvas.cs:23 | The canvas width is the grid's width. |
| Canvas.RenderedCanvas.Height | src/PixelStacker.Logic/Model/RenderedCanvas.cs:22 | The canvas height is the grid's height. |
| Canvas.RenderedCanvas.IsComplete | src/PixelStacker.Logic/Model/RenderedCanvas.cs:11-14 | Complete means the image, palette, grid and pan/zoom settings are all non-null. Its properties are `CompletenessNeedsAllFour` and `FilledCanvasIsComplete`. |
| Canvas.NewRenderedCanvas | src/PixelStacker.Logic/Model/RenderedCanvas.cs:8-36 | A new canvas is not customized, its world-edit origin is (0, 0), every reference property is null, and so it is not complete. |
| Canvas.CompletenessNeedsAllFour | src/PixelStacker.Logic/Model/RenderedCanvas.cs:11-23 | A canvas is complete exactly when the image, palette, grid and pan/zoom settings are all present. A complete canvas has the grid's width and height. |
| Canvas.FilledCanvasIsComplete | src/PixelStacker.Logic/Model/RenderedCanvas.cs:11-23 | Filling in the four properties of a new canvas makes it complete, with the grid's size, and leaves the defaults untouched. |
| Points.PxPoint.constructor | src/PixelStacker.Logic/Model/PxPoint.cs:14 | The default point is (0, 0). |
| Points.PxPoint.FromCoordinates | src/PixelStacker.Logic/Model/PxPoint.cs:16 | The point stores exactly the given coordinates. |
| Points.PxPoint.SetX | src/PixelStacker.Logic/Model/PxPoint.cs:11 | Setting X changes X only. |
| Points.PxPoint.SetY | src/PixelStacker.Logic/Model/PxPoint.cs:12 | Setting Y changes Y only. |
| Points.PxPoint.Clone | src/PixelStacker.Logic/Model/PxPoint.cs:19 | The clone is a new object with the same coordinates. |
| Points.MoveClone | src/PixelStacker.Logic/Model/PxPoint.cs:11-19 | Moving a clone leaves the original where it was, because the clone is a separate object. |

## Left out

- `RenderIntoTilesAsync` and `CreateLayer0Image` (RenderedCanvasPainter.Tiling.cs:31-147, 200-234) are left out. They are task-parallel SkiaSharp drawing with progress reporting, and their source and destination rectangles are computed in floating point. Only the layer-0 chunk selection inside the downsampled-layer loop is modelled (`Layer0ChunksOfTile`).
- RenderedCanvasPainter: sizes are unbounded integers. C# `int` overflow in `textureSize * srcW` and similar products is not modelled; it needs canvases far larger than the game allows. `TileSize` stands for an `SKSize`, whose float components here always hold whole numbers.
- RenderedCanvasPainter.LastChunkCanBeEmpty: this is a documented behaviour, not a claimed defect. The painter would create a zero-width bitmap at such a layer. Whether SkiaSharp accepts that is not part of this model.
- The KD-tree library is not modelled; its ten-nearest query is specified instead. Its order among entries at equal RGB distance is not known, so the model breaks ties by insertion order. Which tied entry makes the shortlist, and so the first-minimum choice after it, may differ in the library.
- `GetAverageColor` and `GetAverageColorDistance` of a combination are not modelled. They are the `averageColor` and `colorDistance` fields of `ColorMapper.KdTreeMapper`. The float conversion of the RGB components is exact for byte values and is not modelled.
- ColorMapper.KdTreeMapper.SetSeedData: a null element inside the list is not modelled; the list holds combination values, which cannot be null. In the source such an element fails in the loop after the earlier entries were added.
- ColorMapper.KdTreeMapper.SetSeedData: the KD-tree library's handling of a point added twice is not part of this model. The model keeps one entry per combination even when two combinations share an average RGB point. If the library drops or merges such duplicates, its shortlist can differ from the modelled one; `SelfMatch` assumes distinct points for this reason.
- The `lock (Padlock)` mutual exclusion in `KdTreeMapper` is not modelled. Each method is one atomic step.
- `Constants.MaterialCombinationIDForAir` is not part of this model. The air identifier is the constant `AIR_COMBINATION_ID` (0); the proofs do not depend on its value.
- `PxColor.Transparent` is not part of this model. It is `TRANSPARENT`, the colour with all four channels zero.
- The quantizer classes, colour caches and ditherers are not modelled. Whether a quantizer allows parallel work or takes a colour cache is read from `Collaborators.capabilities`. The quantizers are identified by the `QuantizerKind` variants.
- The `QuantizerAlgorithm` name constants are not part of this model. Each name is modelled by a string equal to its identifier; the proofs use only that the eight are distinct.
- `QuantizerAlgorithmOptions` is not part of this model. Its lists are modelled as null until `GetQuantizerAlgorithmOptions` fills them, which is what `WuWithDerivedOptionsHasNoDithererList` rests on.
- The ordered dictionary type is not part of this model. Its indexer is modelled as returning the first entry with the key and failing on a missing key.
- `settings.IsValid`, `Constants.IsDevMode`, `ImageBuffer.QuantizeImage` and `To32bppBitmap` are not modelled; they are parameters in `Collaborators`.
- QuantizerEngine.RenderImage: the catch block's cancellation check is modelled as a flag read once. If cancellation was requested, the try block ends in the cancellation error; otherwise its own outcome stands. When exactly `ToMergeStream` observes the token is not modelled. A merge with a differently sized image is modelled as an error.
- Materials: the lazily memoised `TopImage`, `SideImage` and `GetAverageColor`, the bitmap compositing behind them, and the JSON converter are left out. `GetImage` selects between two given renderings.
- Materials: `GetHashCode` is the .NET string hash of the hash key, which is not modelled. The model reasons about the key string `HashKey` instead. `Materials.FromPixelStackerID` is the `lookup` parameter.
- Materials.Create: the source assigns the slots and computes `IsMultiLayer` before its null checks. That is unobservable because construction then throws, so the model checks first.
- Canvas.RenderedCanvas.Width, Canvas.RenderedCanvas.Height and RenderedCanvasPainter.CalculateChunkSizes require a grid. Reading the size of a canvas without one is a null-reference failure in the source. The grid's cells, the preprocessed bitmap and the pan/zoom contents are left out; the JSON attributes are serialisation only.
- `PxPoint`'s `float` and `SKPoint` constructors are left out. They truncate floating-point values.
- The WinForms UI (the canvas editor and the custom table layout panel) is left out; it is presentation code.
