/**
 * The rendered canvas record: the preprocessed image, the palette, the
 * material grid and the pan/zoom state, with a completeness test and the
 * grid's size.
 */
module Canvas {
  import opened Wrappers
  import opened Drawing
  import Materials

  /** A `System.Drawing.Point`. */
  datatype Point = Point(x: int, y: int)

  /** The material grid; only its size matters here, its cells are not part of this model. */
  datatype CanvasData = CanvasData(width: nat, height: nat)

  /** The viewer's pan and zoom; its contents are not part of this model. */
  datatype PanZoomSettings = PanZoomSettings

  /** A canvas; a reference-typed property that is still null is None. */
  datatype RenderedCanvas = RenderedCanvas(
    isCustomized: bool,
    worldEditOrigin: Point,
    preprocessedImage: Option<PxBitmap>,
    materialPalette: Option<Materials.MaterialPalette>,
    canvasData: Option<CanvasData>,
    panZoomSettings: Option<PanZoomSettings>,
    isSideView: bool)
  {
    /** `IsComplete`: none of the four reference properties is null. */
    predicate IsComplete() {
      preprocessedImage.Some? && materialPalette.Some? && canvasData.Some? && panZoomSettings.Some?
    }

    /** `Width`: the grid's width (a null grid is a null-reference failure, excluded here). */
    function Width(): (w: nat)
      requires canvasData.Some?
      ensures w == canvasData.value.width
    {
      canvasData.value.width
    }

    /** `Height`: the grid's height. */
    function Height(): (h: nat)
      requires canvasData.Some?
      ensures h == canvasData.value.height
    {
      canvasData.value.height
    }
  }

  /** `new RenderedCanvas()`: not customized, world-edit origin (0,0), every reference property null. */
  function NewRenderedCanvas(): (r: RenderedCanvas)
    ensures !r.isCustomized && r.worldEditOrigin == Point(0, 0)
    ensures r.preprocessedImage.None? && r.materialPalette.None? && r.canvasData.None? && r.panZoomSettings.None?
    ensures !r.IsComplete()
  {
    RenderedCanvas(false, Point(0, 0), None, None, None, None, false)
  }

  /**
   * A canvas is complete exactly when all four reference properties are
   * set, and then its size is the grid's size.
   */
  lemma CompletenessNeedsAllFour(c: RenderedCanvas)
    ensures c.IsComplete() <==>
      c.preprocessedImage.Some? && c.materialPalette.Some? && c.canvasData.Some? && c.panZoomSettings.Some?
    ensures c.IsComplete() ==> c.Width() == c.canvasData.value.width && c.Height() == c.canvasData.value.height
    ensures c.canvasData.None? ==> !c.IsComplete()
  {
  }

  /** Filling in the four properties of a fresh canvas completes it and gives it the grid's size. */
  lemma FilledCanvasIsComplete(image: PxBitmap, palette: Materials.MaterialPalette, data: CanvasData, view: PanZoomSettings)
    ensures var c := NewRenderedCanvas().(preprocessedImage := Some(image), materialPalette := Some(palette),
                                          canvasData := Some(data), panZoomSettings := Some(view));
      c.IsComplete() && c.Width() == data.width && c.Height() == data.height
      && !c.isCustomized && c.worldEditOrigin == Point(0, 0)
  {
  }
}
