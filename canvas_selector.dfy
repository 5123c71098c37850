/**
 * The pure derivations of the canvas component: the stage cursor chosen by
 * the canvas selector, whether the bounding box is being modified, and the
 * visibility and composite-operation choices of the layers it renders.
 */
module CanvasSelector {

  /** The canvas tools; `ImageEraser` draws into the separate eraser-line list. */
  datatype Tool = Brush | Eraser | ImageEraser

  /**
   * The slice of the current canvas state and of the options that the canvas
   * component reads but that its event handlers never write.
   */
  datatype Settings = Settings(
    tool: Tool,
    brushSize: real,
    shouldInvertMask: bool,
    shouldShowMask: bool,
    shouldShowCheckboardTransparency: bool,
    shouldShowBoundingBox: bool,
    shouldShowBoundingBoxFill: bool,
    isTransformingBoundingBox: bool,
    isMovingBoundingBox: bool,
    isMouseOverBoundingBox: bool,
    isMoveStageKeyHeld: bool,
    activeTabName: string)

  /** The bounding box is being transformed or moved; drawing is suppressed meanwhile. */
  predicate IsModifyingBoundingBox(s: Settings) {
    s.isTransformingBoundingBox || s.isMovingBoundingBox
  }

  /** The stage can be dragged only on the outpainting tab while the move-stage key is held. */
  predicate StageDraggable(s: Settings) {
    s.isMoveStageKeyHeld && s.activeTabName == "outpainting"
  }

  /** CSS cursor of the stage: `Unset` is `undefined` (no cursor style), `Hidden` is `'none'`. */
  datatype StageCursor = Unset | Move | Hidden | Default

  /** The selector's priority chain: transforming, then moving/hovering/panning, then mask shown. */
  function StageCursorOf(s: Settings): (c: StageCursor)
    ensures c == Unset <==> s.isTransformingBoundingBox
    ensures c == Move <==>
      !s.isTransformingBoundingBox
      && (s.isMovingBoundingBox || s.isMouseOverBoundingBox || s.isMoveStageKeyHeld)
    ensures c == Hidden <==>
      !IsModifyingBoundingBox(s) && !s.isMouseOverBoundingBox && !s.isMoveStageKeyHeld
      && s.shouldShowMask
  {
    if s.isTransformingBoundingBox then Unset
    else if s.isMovingBoundingBox || s.isMouseOverBoundingBox || s.isMoveStageKeyHeld then Move
    else if s.shouldShowMask then Hidden
    else Default
  }

  /** Which of the rendered layers and nodes are visible. */
  datatype LayerVisibility = LayerVisibility(
    imageLayer: bool,
    maskLayer: bool,
    brushPreview: bool,
    brushPreviewOutline: bool,
    sourceInCopy: bool,
    sourceOutCopy: bool,
    boundingBoxLayer: bool,
    boundingBoxOverlay: bool,
    boundingBoxPreview: bool)

  function Count(b: bool): nat { if b then 1 else 0 }

  /**
   * Visibility of the stage's nodes. The two copies of the base image inside
   * the mask layer exist only once the background image has loaded.
   */
  function Visibility(s: Settings, hasBackgroundImage: bool): (v: LayerVisibility)
    ensures v.imageLayer <==> !s.shouldInvertMask && !s.shouldShowCheckboardTransparency
    ensures v.brushPreview <==> !IsModifyingBoundingBox(s) && !s.isMoveStageKeyHeld
    ensures v.brushPreviewOutline == v.brushPreview
    ensures v.maskLayer == s.shouldShowMask && v.boundingBoxLayer == s.shouldShowMask
    ensures !(v.sourceInCopy && v.sourceOutCopy)
    ensures !hasBackgroundImage ==> !v.sourceInCopy && !v.sourceOutCopy
    ensures hasBackgroundImage ==>
      Count(v.imageLayer) + Count(v.sourceInCopy) + Count(v.sourceOutCopy) == 1
    ensures v.sourceInCopy <==> hasBackgroundImage && s.shouldInvertMask
    ensures v.sourceOutCopy <==> hasBackgroundImage && !s.shouldInvertMask && s.shouldShowCheckboardTransparency
    ensures v.boundingBoxPreview == s.shouldShowBoundingBox
    ensures v.boundingBoxOverlay <==> s.shouldShowBoundingBoxFill && s.shouldShowBoundingBox
  {
    var preview := !IsModifyingBoundingBox(s) && !s.isMoveStageKeyHeld;
    LayerVisibility(
      imageLayer := !s.shouldInvertMask && !s.shouldShowCheckboardTransparency,
      maskLayer := s.shouldShowMask,
      brushPreview := preview,
      brushPreviewOutline := preview,
      sourceInCopy := hasBackgroundImage && s.shouldInvertMask,
      sourceOutCopy := hasBackgroundImage && !s.shouldInvertMask && s.shouldShowCheckboardTransparency,
      boundingBoxLayer := s.shouldShowMask,
      boundingBoxOverlay := s.shouldShowBoundingBoxFill && s.shouldShowBoundingBox,
      boundingBoxPreview := s.shouldShowBoundingBox)
  }

  /** Whenever the stage hides its cursor, the brush preview stands in for it. */
  lemma HiddenCursorShowsBrushPreview(s: Settings, hasBackgroundImage: bool)
    requires StageCursorOf(s) == Hidden
    ensures Visibility(s, hasBackgroundImage).brushPreview
    ensures Visibility(s, hasBackgroundImage).maskLayer
  {
  }

  /** A draggable stage shows the move cursor (unless the box is being transformed) and no brush preview. */
  lemma DraggableStageShowsMoveCursor(s: Settings, hasBackgroundImage: bool)
    requires StageDraggable(s)
    ensures s.isTransformingBoundingBox ==> StageCursorOf(s) == Unset
    ensures !s.isTransformingBoundingBox ==> StageCursorOf(s) == Move
    ensures !Visibility(s, hasBackgroundImage).brushPreview && !Visibility(s, hasBackgroundImage).brushPreviewOutline
  {
  }

  /** An object of the outpainting scene: a placed image or an eraser line. */
  datatype CanvasObject =
    | ImageObject(x: real, y: real, url: string)
    | LineObject(points: seq<real>, strokeWidth: real)

  /** A node drawn in the image layer. */
  datatype Drawn =
    | BackgroundImage
    | PlacedImage(x: real, y: real, url: string)
    | ErasingLine(points: seq<real>, width: real, compositeOperation: string)

  function RenderObject(o: CanvasObject): Drawn {
    match o
    case ImageObject(x, y, url) => PlacedImage(x, y, url)
    case LineObject(points, w) => ErasingLine(points, w * 2.0, "destination-out")
  }

  /**
   * The image layer, back to front: the background image once loaded, then
   * the outpainting objects, which the selector passes on only while the
   * current canvas is the outpainting one.
   */
  function ImageLayerContent(hasBackgroundImage: bool, currentCanvas: string, objects: seq<CanvasObject>): (d: seq<Drawn>)
    ensures |d| == Count(hasBackgroundImage) + (if currentCanvas == "outpainting" then |objects| else 0)
    ensures hasBackgroundImage ==> d[0] == BackgroundImage
    ensures forall i :: Count(hasBackgroundImage) <= i < |d| ==> !d[i].BackgroundImage?
    ensures currentCanvas == "outpainting" ==>
      forall i :: 0 <= i < |objects| ==>
        match objects[i]
        case ImageObject(x, y, url) => d[Count(hasBackgroundImage) + i] == PlacedImage(x, y, url)
        case LineObject(points, w) =>
          d[Count(hasBackgroundImage) + i] == ErasingLine(points, 2.0 * w, "destination-out")
  {
    var background := if hasBackgroundImage then [BackgroundImage] else [];
    var scene := if currentCanvas == "outpainting" then objects else [];
    background + seq(|scene|, i requires 0 <= i < |scene| => RenderObject(scene[i]))
  }
}
