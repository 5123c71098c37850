/**
 * The mask compositer: a rectangle filled with the mask colour, composited
 * `source-in` over the mask strokes, sized and offset so that it covers the
 * whole viewport whatever the stage's pan and zoom.
 */
module MaskCompositer {
  import opened Wrappers
  import opened Geometry
  import opened CanvasInput

  datatype RgbaColor = RgbaColor(r: int, g: int, b: int, a: real)

  /** The fields of the current canvas state the compositer's selector looks at, and two it does not. */
  datatype CompositerCanvas = CompositerCanvas(
    lines: seq<MaskLine>,
    maskColor: RgbaColor,
    stageCoordinates: Point,
    stageDimensions: Dimensions,
    stageScale: real,
    isDrawing: bool,
    eraserLines: seq<EraserLine>)

  /** The selector's result. */
  datatype CompositerView = CompositerView(
    lines: seq<MaskLine>,
    stageCoordinates: Point,
    stageDimensions: Dimensions,
    stageScale: real,
    maskColorString: string)

  /** `canvasMaskCompositerSelector`; `colorToString` is `rgbaColorToString`, which is not part of this model. */
  function Select(canvas: CompositerCanvas, colorToString: RgbaColor -> string): (v: CompositerView)
    ensures v.lines == canvas.lines && v.stageCoordinates == canvas.stageCoordinates
    ensures v.stageDimensions == canvas.stageDimensions && v.stageScale == canvas.stageScale
    ensures v.maskColorString == colorToString(canvas.maskColor)
  {
    CompositerView(canvas.lines, canvas.stageCoordinates, canvas.stageDimensions, canvas.stageScale,
                   colorToString(canvas.maskColor))
  }

  /** The selector sees nothing but lines, mask colour, stage position, size and scale. */
  lemma SelectReadsOnlyItsFields(a: CompositerCanvas, b: CompositerCanvas, colorToString: RgbaColor -> string)
    requires a.lines == b.lines && a.maskColor == b.maskColor && a.stageCoordinates == b.stageCoordinates
    requires a.stageDimensions == b.stageDimensions && a.stageScale == b.stageScale
    ensures Select(a, colorToString) == Select(b, colorToString)
  {
  }

  /** The attributes of the Konva `Rect` the compositer renders. */
  datatype RectAttrs = RectAttrs(
    offsetX: real,
    offsetY: real,
    width: real,
    height: real,
    fill: string,
    globalCompositeOperation: string)

  /** Attributes a caller may pass; whatever is given is spread after the computed ones. */
  datatype RectProps = RectProps(
    offsetX: Option<real>,
    offsetY: Option<real>,
    width: Option<real>,
    height: Option<real>,
    fill: Option<string>,
    globalCompositeOperation: Option<string>)

  const NoProps := RectProps(None, None, None, None, None, None)

  function Override<T>(given: Option<T>, computed: T): T {
    match given
    case Some(v) => v
    case None => computed
  }

  /** The rectangle: viewport size and stage offset divided by the scale; caller props win. */
  function CompositerRect(v: CompositerView, props: RectProps): (r: RectAttrs)
    requires v.stageScale > 0.0
    ensures props.width.None? ==> r.width * v.stageScale == v.stageDimensions.width
    ensures props.height.None? ==> r.height * v.stageScale == v.stageDimensions.height
    ensures props.offsetX.None? ==> r.offsetX * v.stageScale == v.stageCoordinates.x
    ensures props.offsetY.None? ==> r.offsetY * v.stageScale == v.stageCoordinates.y
    ensures props.fill.None? ==> r.fill == v.maskColorString
    ensures props.globalCompositeOperation.None? ==> r.globalCompositeOperation == "source-in"
    ensures props.width.Some? ==> r.width == props.width.value
    ensures props.height.Some? ==> r.height == props.height.value
    ensures props.offsetX.Some? ==> r.offsetX == props.offsetX.value
    ensures props.offsetY.Some? ==> r.offsetY == props.offsetY.value
    ensures props.fill.Some? ==> r.fill == props.fill.value
    ensures props.globalCompositeOperation.Some? ==> r.globalCompositeOperation == props.globalCompositeOperation.value
  {
    RectAttrs(
      offsetX := Override(props.offsetX, v.stageCoordinates.x / v.stageScale),
      offsetY := Override(props.offsetY, v.stageCoordinates.y / v.stageScale),
      width := Override(props.width, v.stageDimensions.width / v.stageScale),
      height := Override(props.height, v.stageDimensions.height / v.stageScale),
      fill := Override(props.fill, v.maskColorString),
      globalCompositeOperation := Override(props.globalCompositeOperation, "source-in"))
  }

  /** The stage transform: scale, then translate by the stage position. */
  function ToViewport(p: Point, coordinates: Point, scale: real): Point {
    Point(p.x * scale + coordinates.x, p.y * scale + coordinates.y)
  }

  /**
   * With no caller props, the rectangle (drawn at its negated offset, as
   * Konva does for a shape at the origin) covers exactly the viewport: its
   * corners land on (0, 0) and on the stage's width and height, and its
   * top-left corner is the logical point under the viewport's top-left.
   */
  lemma RectCoversViewport(v: CompositerView)
    requires v.stageScale > 0.0
    ensures var r := CompositerRect(v, NoProps);
      var topLeft := Point(-r.offsetX, -r.offsetY);
      var bottomRight := Point(-r.offsetX + r.width, -r.offsetY + r.height);
      && ToViewport(topLeft, v.stageCoordinates, v.stageScale) == Point(0.0, 0.0)
      && ToViewport(bottomRight, v.stageCoordinates, v.stageScale)
         == Point(v.stageDimensions.width, v.stageDimensions.height)
      && topLeft == Logical(Point(0.0, 0.0), v.stageCoordinates, v.stageScale)
  {
    var r := CompositerRect(v, NoProps);
    var s := v.stageScale;
    assert (-r.offsetX + r.width) * s == -(r.offsetX * s) + r.width * s;
    assert (-r.offsetY + r.height) * s == -(r.offsetY * s) + r.height * s;
    assert -r.offsetX * s == -(r.offsetX * s);
    assert -r.offsetY * s == -(r.offsetY * s);
  }
}
