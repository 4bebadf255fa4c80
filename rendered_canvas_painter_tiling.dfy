/**
 * The tile grid of the canvas painter. The canvas is cut into chunks of
 * 38 by 38 blocks; each block is drawn `textureSize` pixels wide. Layer
 * `l` of the pyramid shows the canvas at 1/2^l scale, so a chunk there
 * covers 2^l times as many blocks while keeping the same size in pixels.
 * The last column and the last row of a layer are trimmed to the canvas.
 *
 * `textureSize` stands for `Constants.TextureSize` and is a parameter
 * (16 in the source's own comment); the drawing is not part of this model.
 */
module RenderedCanvasPainter {
  import opened IntMath
  import Canvas

  const BLOCKS_PER_CHUNK: nat := 38

  /** An `SKSize` whose two components are whole numbers of pixels. */
  datatype TileSize = TileSize(width: int, height: int)

  /** The chunk count as the source computes it: the quotient, plus one for a remainder. */
  function ChunkCount(srcPixels: nat, srcPixelsPerChunk: nat): nat
    requires srcPixelsPerChunk > 0
  {
    srcPixels / srcPixelsPerChunk + (if srcPixels % srcPixelsPerChunk == 0 then 0 else 1)
  }

  /** The chunk count is the ceiling of the quotient: index `k` is a chunk exactly when the chunk starts inside the image. */
  lemma ChunkCountIsCeiling(srcPixels: nat, perChunk: nat, k: nat)
    requires perChunk > 0
    ensures k < ChunkCount(srcPixels, perChunk) <==> perChunk * k < srcPixels
  {
    var n := ChunkCount(srcPixels, perChunk);
    var q, r := srcPixels / perChunk, srcPixels % perChunk;
    assert srcPixels == perChunk * q + r;
    if k < n {
      MulMonotone(perChunk, k, n - 1);
      assert perChunk * (n - 1) < srcPixels by {
        if r == 0 {
          assert perChunk * (q - 1) == perChunk * q - perChunk;
        }
      }
    } else {
      MulMonotone(perChunk, n, k);
      assert perChunk * n >= srcPixels by {
        if r != 0 {
          assert perChunk * (q + 1) == perChunk * q + perChunk;
        }
      }
    }
  }

  /** The per-layer quantities `CalculateChunkSizesForLayer` derives from the canvas size. */
  datatype LayerGeometry = LayerGeometry(
    chunksWide: nat, chunksHigh: nat, dstPixelsPerChunk: int, deltaX: int, deltaY: int)

  function Geometry(srcW: nat, srcH: nat, scaleDivide: nat, textureSize: nat): LayerGeometry
    requires scaleDivide >= 1
  {
    var srcPixelsPerChunk := BLOCKS_PER_CHUNK * scaleDivide;
    var dstPixelsPerChunk := textureSize * srcPixelsPerChunk / scaleDivide;
    var wide := ChunkCount(srcW, srcPixelsPerChunk);
    var high := ChunkCount(srcH, srcPixelsPerChunk);
    LayerGeometry(wide, high, dstPixelsPerChunk,
      wide * dstPixelsPerChunk - textureSize * srcW / scaleDivide,
      high * dstPixelsPerChunk - textureSize * srcH / scaleDivide)
  }

  /** The extent of chunk `i` along one axis: full size, except the last, which gives back `delta`. */
  function ChunkExtent(i: int, count: nat, full: int, delta: int): int {
    if i < count - 1 then full else full - delta
  }

  function ColumnWidth(g: LayerGeometry, x: int): int {
    ChunkExtent(x, g.chunksWide, g.dstPixelsPerChunk, g.deltaX)
  }

  function RowHeight(g: LayerGeometry, y: int): int {
    ChunkExtent(y, g.chunksHigh, g.dstPixelsPerChunk, g.deltaY)
  }

  /** The sum of the first `k` extents along an axis. */
  function ExtentSum(k: nat, count: nat, full: int, delta: int): int {
    if k == 0 then 0 else ExtentSum(k - 1, count, full, delta) + ChunkExtent(k - 1, count, full, delta)
  }

  lemma {:induction false} ExtentSumOfFullChunks(k: nat, count: nat, full: int, delta: int)
    requires k < count
    ensures ExtentSum(k, count, full, delta) == k * full
  {
    if k > 0 {
      ExtentSumOfFullChunks(k - 1, count, full, delta);
    }
  }

  /**
   * Along one axis of a layer: a chunk's destination size is 38 texture
   * widths; the trim `delta` is between zero and a whole chunk, so no chunk
   * is larger than the others; and the extents add up to the scaled image
   * size `textureSize * src / scaleDivide`.
   */
  lemma AxisLayout(src: nat, scaleDivide: nat, textureSize: nat)
    requires scaleDivide >= 1
    ensures var per := BLOCKS_PER_CHUNK * scaleDivide;
      var full := textureSize * per / scaleDivide;
      var count := ChunkCount(src, per);
      var delta := count * full - textureSize * src / scaleDivide;
      full == BLOCKS_PER_CHUNK * textureSize
      && 0 <= delta && (count > 0 ==> delta <= full)
      && ExtentSum(count, count, full, delta) == textureSize * src / scaleDivide
  {
    var per := BLOCKS_PER_CHUNK * scaleDivide;
    var full := BLOCKS_PER_CHUNK * textureSize;
    DestinationChunkSize(scaleDivide, textureSize);
    ScaledSizeWithinChunks(src, scaleDivide, textureSize);
    var count := ChunkCount(src, per);
    if count > 0 {
      var delta := count * full - textureSize * src / scaleDivide;
      ExtentSumOfFullChunks(count - 1, count, full, delta);
    }
  }

  lemma DestinationChunkSize(scaleDivide: nat, textureSize: nat)
    requires scaleDivide >= 1
    ensures textureSize * (BLOCKS_PER_CHUNK * scaleDivide) / scaleDivide == BLOCKS_PER_CHUNK * textureSize
  {
    var full := BLOCKS_PER_CHUNK * textureSize;
    assert textureSize * (BLOCKS_PER_CHUNK * scaleDivide) == full * scaleDivide;
    DivAtLeast(textureSize * (BLOCKS_PER_CHUNK * scaleDivide), scaleDivide, full);
    DivAtMost(textureSize * (BLOCKS_PER_CHUNK * scaleDivide), scaleDivide, full);
  }

  /** The scaled image ends inside the last chunk: after `count - 1` full chunks and no later than `count`. */
  lemma ScaledSizeWithinChunks(src: nat, scaleDivide: nat, textureSize: nat)
    requires scaleDivide >= 1
    ensures var count := ChunkCount(src, BLOCKS_PER_CHUNK * scaleDivide);
      var full := BLOCKS_PER_CHUNK * textureSize;
      textureSize * src / scaleDivide <= count * full
      && (count > 0 ==> (count - 1) * full <= textureSize * src / scaleDivide)
  {
    var per := BLOCKS_PER_CHUNK * scaleDivide;
    var full := BLOCKS_PER_CHUNK * textureSize;
    var count := ChunkCount(src, per);
    ChunkCountIsCeiling(src, per, count);
    MulMonotone(textureSize, src, per * count);
    assert textureSize * (per * count) == (count * full) * scaleDivide;
    DivAtMost(textureSize * src, scaleDivide, count * full);
    if count > 0 {
      ChunkCountIsCeiling(src, per, count - 1);
      MulMonotone(textureSize, per * (count - 1), src);
      assert textureSize * (per * (count - 1)) == ((count - 1) * full) * scaleDivide;
      DivAtLeast(textureSize * src, scaleDivide, (count - 1) * full);
    }
  }

  /**
   * At full scale and at any scale no coarser than one texture pixel per
   * block, the trimmed last chunk of a non-empty axis keeps at least one pixel.
   */
  lemma LastChunkIsNonEmpty(src: nat, scaleDivide: nat, textureSize: nat)
    requires 1 <= scaleDivide <= textureSize && src > 0
    ensures var g := Geometry(src, src, scaleDivide, textureSize);
      g.chunksWide > 0 && ColumnWidth(g, g.chunksWide - 1) >= 1
  {
    var per := BLOCKS_PER_CHUNK * scaleDivide;
    var full := BLOCKS_PER_CHUNK * textureSize;
    AxisLayout(src, scaleDivide, textureSize);
    var count := ChunkCount(src, per);
    ChunkCountIsCeiling(src, per, 0);
    ChunkCountIsCeiling(src, per, count - 1);
    MulMonotone(textureSize, per * (count - 1) + 1, src);
    assert textureSize * (per * (count - 1) + 1) == ((count - 1) * full) * scaleDivide + textureSize;
    assert ((count - 1) * full + 1) * scaleDivide == ((count - 1) * full) * scaleDivide + scaleDivide;
    DivAtLeast(textureSize * src, scaleDivide, (count - 1) * full + 1);
  }

  /**
   * At coarser scales the last chunk can shrink to nothing: a canvas 1217
   * blocks wide with 16-pixel textures has, at 1/32 scale, two columns and
   * a last column zero pixels wide.
   */
  lemma LastChunkCanBeEmpty()
    ensures var g := Geometry(1217, 1217, 32, 16);
      g.chunksWide == 2 && ColumnWidth(g, 0) == 608 && ColumnWidth(g, 1) == 0
  {
    assert 1217 / (BLOCKS_PER_CHUNK * 32) == 1 && 1217 % (BLOCKS_PER_CHUNK * 32) == 1;
    assert 16 * 1217 / 32 == 608;
  }

  /** The grid holds one size per chunk, each made of its column's width and its row's height. */
  ghost predicate IsLayerGrid(a: array2<TileSize>, g: LayerGeometry)
    reads a
  {
    a.Length0 == g.chunksWide && a.Length1 == g.chunksHigh
    && forall x, y :: 0 <= x < a.Length0 && 0 <= y < a.Length1 ==>
         a[x, y] == TileSize(ColumnWidth(g, x), RowHeight(g, y))
  }

  /**
   * `CalculateChunkSizesForLayer`: a new grid with one entry per chunk of
   * the layer at scale 1/`scaleDivide`, filled column by column.
   */
  method CalculateChunkSizesForLayer(srcW: nat, srcH: nat, scaleDivide: nat, textureSize: nat) returns (sizeSet: array2<TileSize>)
    requires scaleDivide >= 1
    ensures fresh(sizeSet)
    ensures IsLayerGrid(sizeSet, Geometry(srcW, srcH, scaleDivide, textureSize))
  {
    // the chunk counts, the destination chunk size and the trims of the last column and row
    var g := Geometry(srcW, srcH, scaleDivide, textureSize);
    var numChunksWide, numChunksHigh, dstPixelsPerChunk := g.chunksWide, g.chunksHigh, g.dstPixelsPerChunk;
    var deltaX, deltaY := g.deltaX, g.deltaY;
    sizeSet := new TileSize[numChunksWide, numChunksHigh];
    for x := 0 to numChunksWide
      invariant forall x', y :: 0 <= x' < x && 0 <= y < numChunksHigh ==>
        sizeSet[x', y] == TileSize(ColumnWidth(g, x'), RowHeight(g, y))
    {
      var dstWidthOfChunk := if x < numChunksWide - 1 then dstPixelsPerChunk else dstPixelsPerChunk - deltaX;
      for y := 0 to numChunksHigh
        invariant forall x', y' :: 0 <= x' < x && 0 <= y' < numChunksHigh ==>
          sizeSet[x', y'] == TileSize(ColumnWidth(g, x'), RowHeight(g, y'))
        invariant forall y' :: 0 <= y' < y ==> sizeSet[x, y'] == TileSize(ColumnWidth(g, x), RowHeight(g, y'))
      {
        var dstHeightOfChunk := if y < numChunksHigh - 1 then dstPixelsPerChunk else dstPixelsPerChunk - deltaY;
        sizeSet[x, y] := TileSize(dstWidthOfChunk, dstHeightOfChunk);
      }
    }
  }

  /** Layer generation continues only while both dimensions can still be halved. */
  predicate Splittable(g: LayerGeometry) {
    g.chunksWide > 2 && g.chunksHigh > 2
  }

  /** The geometry of layer `l` of a canvas: scale 1/2^l. */
  function LayerAt(width: nat, height: nat, l: nat, textureSize: nat): LayerGeometry {
    Geometry(width, height, Pow2(l), textureSize)
  }

  /**
   * `CalculateChunkSizes`: at least one layer; layer `l` is the grid at
   * scale 1/2^l; every layer but the last can still be split; and the last
   * either cannot be split or is layer number max(1, maxLayers).
   */
  method CalculateChunkSizes(data: Canvas.RenderedCanvas, maxLayers: int, textureSize: nat) returns (sizesList: seq<array2<TileSize>>)
    requires data.canvasData.Some?
    ensures 1 <= |sizesList| <= (if maxLayers < 1 then 1 else maxLayers)
    ensures forall l :: 0 <= l < |sizesList| ==>
      fresh(sizesList[l]) && IsLayerGrid(sizesList[l], LayerAt(data.Width(), data.Height(), l, textureSize))
    ensures forall l :: 0 <= l < |sizesList| - 1 ==> Splittable(LayerAt(data.Width(), data.Height(), l, textureSize))
    ensures !Splittable(LayerAt(data.Width(), data.Height(), |sizesList| - 1, textureSize))
      || |sizesList| == (if maxLayers < 1 then 1 else maxLayers)
  {
    var width, height := data.Width(), data.Height();
    var scaleDivide := 1;
    var layersLeft := maxLayers;
    var curSizeSet := CalculateChunkSizesForLayer(width, height, scaleDivide, textureSize);
    sizesList := [curSizeSet];
    scaleDivide := scaleDivide * 2;
    layersLeft := layersLeft - 1;
    while curSizeSet.Length0 > 2 && curSizeSet.Length1 > 2 && layersLeft > 0
      invariant 1 <= |sizesList| <= (if maxLayers < 1 then 1 else maxLayers)
      invariant layersLeft == maxLayers - |sizesList|
      invariant scaleDivide == Pow2(|sizesList|)
      invariant curSizeSet == sizesList[|sizesList| - 1]
      invariant forall l :: 0 <= l < |sizesList| ==>
        fresh(sizesList[l]) && IsLayerGrid(sizesList[l], LayerAt(width, height, l, textureSize))
      invariant forall l :: 0 <= l < |sizesList| - 1 ==> Splittable(LayerAt(width, height, l, textureSize))
      decreases layersLeft
    {
      curSizeSet := CalculateChunkSizesForLayer(width, height, scaleDivide, textureSize);
      sizesList := sizesList + [curSizeSet];
      scaleDivide := scaleDivide * 2;
      layersLeft := layersLeft - 1;
    }
  }

  /** A layer-0 chunk, by column and row. */
  datatype ChunkIndex = ChunkIndex(x: int, y: int)

  /** The layer-0 chunks that downsampled tile (x, y) covers at `scaleDivide`, before clipping to the grid. */
  predicate CoveredBy(c: ChunkIndex, x: nat, y: nat, scaleDivide: nat) {
    scaleDivide * x <= c.x < scaleDivide * x + scaleDivide && scaleDivide * y <= c.y < scaleDivide * y + scaleDivide
  }

  /** Column-major order: by column, then by row. */
  predicate Before(a: ChunkIndex, b: ChunkIndex) {
    a.x < b.x || (a.x == b.x && a.y < b.y)
  }

  /**
   * The layer-0 chunks drawn into downsampled tile (x, y): the inner loops
   * of the "other layers" pass, which visit `(scaleDivide*x + i,
   * scaleDivide*y + j)` for `0 <= i, j < scaleDivide` and skip those outside
   * the layer-0 grid. Each covered chunk inside the grid is drawn exactly
   * once, in column-major order.
   */
  method Layer0ChunksOfTile(x: nat, y: nat, scaleDivide: nat, layer0Wide: nat, layer0High: nat) returns (drawn: seq<ChunkIndex>)
    ensures forall c :: c in drawn <==> CoveredBy(c, x, y, scaleDivide) && c.x < layer0Wide && c.y < layer0High
    ensures forall a, b :: 0 <= a < b < |drawn| ==> Before(drawn[a], drawn[b])
  {
    drawn := [];
    for xWithin := 0 to scaleDivide
      invariant forall c :: c in drawn <==>
        CoveredBy(c, x, y, scaleDivide) && c.x < layer0Wide && c.y < layer0High && c.x < scaleDivide * x + xWithin
      invariant forall a, b :: 0 <= a < b < |drawn| ==> Before(drawn[a], drawn[b])
    {
      for yWithin := 0 to scaleDivide
        invariant forall c :: c in drawn <==>
          CoveredBy(c, x, y, scaleDivide) && c.x < layer0Wide && c.y < layer0High
          && (c.x < scaleDivide * x + xWithin || (c.x == scaleDivide * x + xWithin && c.y < scaleDivide * y + yWithin))
        invariant forall a, b :: 0 <= a < b < |drawn| ==> Before(drawn[a], drawn[b])
      {
        var xIndexOfL0Chunk := xWithin + scaleDivide * x;
        var yIndexOfL0Chunk := yWithin + scaleDivide * y;
        if xIndexOfL0Chunk > layer0Wide - 1 || yIndexOfL0Chunk > layer0High - 1 {
          continue;
        }
        var c := ChunkIndex(xIndexOfL0Chunk, yIndexOfL0Chunk);
        assert forall k :: 0 <= k < |drawn| ==> Before(drawn[k], c) by {
          forall k | 0 <= k < |drawn|
            ensures Before(drawn[k], c)
          {
            assert drawn[k] in drawn;
          }
        }
        drawn := drawn + [c];
      }
    }
  }

  /**
   * The layers nest: tile column `x` exists at scale 1/`scaleDivide`
   * exactly when the first layer-0 column it covers exists. So every
   * downsampled tile draws at least one layer-0 chunk, and layer-0 column
   * `a` lies in tile column `a / scaleDivide`, which exists.
   */
  lemma LayersNest(src: nat, scaleDivide: nat, x: nat)
    requires scaleDivide >= 1
    ensures x < ChunkCount(src, BLOCKS_PER_CHUNK * scaleDivide) <==> scaleDivide * x < ChunkCount(src, BLOCKS_PER_CHUNK)
    ensures x < ChunkCount(src, BLOCKS_PER_CHUNK) ==> x / scaleDivide < ChunkCount(src, BLOCKS_PER_CHUNK * scaleDivide)
  {
    TileColumnExists(src, scaleDivide, x);
    if x < ChunkCount(src, BLOCKS_PER_CHUNK) {
      var t := x / scaleDivide;
      TileColumnExists(src, scaleDivide, t);
      ChunkCountIsCeiling(src, BLOCKS_PER_CHUNK, x);
      ChunkCountIsCeiling(src, BLOCKS_PER_CHUNK, scaleDivide * t);
      assert scaleDivide * t <= x;
      MulMonotone(BLOCKS_PER_CHUNK, scaleDivide * t, x);
    }
  }

  lemma TileColumnExists(src: nat, scaleDivide: nat, x: nat)
    requires scaleDivide >= 1
    ensures x < ChunkCount(src, BLOCKS_PER_CHUNK * scaleDivide) <==> scaleDivide * x < ChunkCount(src, BLOCKS_PER_CHUNK)
  {
    ChunkCountIsCeiling(src, BLOCKS_PER_CHUNK * scaleDivide, x);
    ChunkCountIsCeiling(src, BLOCKS_PER_CHUNK, scaleDivide * x);
    assert (BLOCKS_PER_CHUNK * scaleDivide) * x == BLOCKS_PER_CHUNK * (scaleDivide * x);
  }
}
