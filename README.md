# Canvas, gallery preview and generation stream of the web front end

This project models four pieces of the image-generation web UI and its server.

- **The canvas component** (`IAICanvas.tsx`). Pointer, wheel and drag handlers turn input into mask strokes and eraser strokes and pan or zoom the stage. A selector derives the stage cursor and the visibility of the layers.
  - `CanvasSelector` holds the pure derivations.
  - `CanvasInput` holds the handlers as transition functions over a `CanvasState` value, with `Step`/`Run` over event sequences and the lemmas about whole strokes and about zoom.
  - `CanvasController.Canvas` is a class with the same fields. Its handler methods update those fields step by step, and each is proved to reach the state the matching transition function gives.
- **The mask compositer** (`IAICanvasMaskCompositer.tsx`), in module `MaskCompositer`. It is a rectangle filled with the mask colour and composited `source-in`, sized to cover the viewport at any pan and zoom.
- **The generation stream** (`server/views.py`), in module `GenerationStream`. The `image_done` closure keeps two counters and decides which progress or done notice to queue. The `GenerationSession` class models those counters. The response generator turns the queue into output lines and stops at the first terminating event.
- **The current-image preview** (`CurrentImagePreview.tsx`), in module `GalleryPreview`. It finds the current image in its category and decides whether the previous and next buttons show.

Shared modules: `Wrappers` (an `Option` type) and `Geometry` (`Point`, `Dimensions`).

### Behaviours of the code that are easy to miss

- On the dot branch of pointer-up, a failing guard returns before `isDrawing` is cleared, so drawing stays on.
- Pointer-move chooses the stroke list by the tool that is current at the move.
- The dot appended for a click without moves is the cursor position at pointer-up.
- Neither pointer-down nor leaving the canvas resets the move flag. So after a stroke that moved and was cut off by the pointer leaving, the next click does not become a dot: its stroke keeps a single point. `CanvasInput.StrokeSession` states the click rule with that condition, and `CanvasInput.ClickAfterCutOffStroke` shows the sequence of events.

Constants and helpers that are not part of this model become parameters:

- `CANVAS_SCALE_BY ** delta` is `scaleBy: real -> real`.
- `MIN_CANVAS_SCALE` and `MAX_CANVAS_SCALE` are a `ScaleLimits` value with `0 < min <= max`.
- `rgbaColorToString` is `colorToString`.
- The scaled cursor position that `getScaledCursorPosition` returns is an `Option<Point>` event parameter.
- Whether the stage and mask-layer refs are mounted is a `Surface` value.

The canvas reducers are not part of this model. The model assumes `addLine`/`addEraserLine` append a stroke and `addPointToCurrent*Line` extend the last stroke of their list.

## Model

| member | source | states |
|---|---|---|
| `CanvasSelector.StageCursorOf` | frontend/src/features/canvas/IAICanvas.tsx:84-98 | cursor is unset exactly while transforming the box; otherwise `move` exactly when moving or hovering the box or holding the move-stage key; otherwise hidden exactly when the mask is shown |
| `CanvasSelector.Visibility` | frontend/src/features/canvas/IAICanvas.tsx:462-538 | image layer visible iff neither mask inversion nor checkerboard; brush preview and outline visible iff the box is not being modified and the move-stage key is up; mask and bounding-box layers follow the show-mask option; the `source-in` copy shows iff the image has loaded and the mask is inverted, the `source-out` copy iff it has loaded, the mask is not inverted and the checkerboard is on, so once loaded exactly one of image layer and the two copies shows; the box preview follows the show-box option and the overlay shows iff both fill and box are on |
| `CanvasSelector.HiddenCursorShowsBrushPreview` | frontend/src/features/canvas/IAICanvas.tsx:84-98 | whenever the stage hides its cursor, the mask layer and the brush preview are visible |
| `CanvasSelector.DraggableStageShowsMoveCursor` | frontend/src/features/canvas/IAICanvas.tsx:456 | while the stage is draggable (`StageDraggable`: move-stage key held on the outpainting tab) the cursor is `move`, or unset while the box is transformed, and neither brush preview nor outline shows |
| `CanvasSelector.ImageLayerContent` | frontend/src/features/canvas/IAICanvas.tsx:462-495 | the image layer draws the loaded background first, then the outpainting objects in order, and only on the outpainting canvas; eraser lines draw at twice their width with `destination-out` |
| `CanvasInput.AddStroke` | frontend/src/features/canvas/IAICanvas.tsx:234-251 | the image eraser appends one eraser line of half the brush size holding the point, any other tool one mask line tagged with the tool; the other list and every other field are unchanged |
| `CanvasInput.ModifyingBoundingBoxSuppressesDrawing` | frontend/src/features/canvas/IAICanvas.tsx:114 | while the box is transformed or moved (`IsModifyingBoundingBox`), pointer-down and mouse-enter change nothing, pointer-move and pointer-up leave both stroke lists alone, the brush preview is hidden and the cursor is unset or `move` |
| `CanvasInput.ExtendLine` | frontend/src/features/canvas/IAICanvas.tsx:288-291 | extending the current mask line keeps every other line and the last line's tool and width, and appends the points to the last line |
| `CanvasInput.ExtendEraserLine` | frontend/src/features/canvas/IAICanvas.tsx:281-287 | the same for the current eraser line |
| `CanvasInput.MouseDown` | frontend/src/features/canvas/IAICanvas.tsx:219-254 | with any guard failing (no stage, no cursor, no mask layer, box being modified, move-stage key held) nothing changes; otherwise drawing is on and exactly one stroke of half the brush size seeded with the cursor point is added, to the eraser lines iff the tool is the image eraser and otherwise to the lines tagged with the tool; nothing else changes |
| `CanvasInput.MouseMove` | frontend/src/features/canvas/IAICanvas.tsx:261-293 | the cursor is recorded whenever there is one; the last-cursor ref only with a mask layer; the move flag is raised and the current stroke of the present tool extended by the point exactly when drawing and not blocked; drawing flag, scale and position never change |
| `CanvasInput.MouseUp` | frontend/src/features/canvas/IAICanvas.tsx:300-337 | drawing without a recorded move: guard failing leaves everything (drawing stays on), otherwise the cursor point is appended again and drawing stops; in every other case only the move flag and drawing flag are cleared |
| `CanvasInput.MouseOut` | frontend/src/features/canvas/IAICanvas.tsx:344-347 | cursor cleared and drawing off; strokes, move flag, last cursor, scale and position unchanged |
| `CanvasInput.MouseEnter` | frontend/src/features/canvas/IAICanvas.tsx:354-391 | with buttons other than the primary alone nothing changes; otherwise it behaves exactly as pointer-down |
| `CanvasInput.Clamp` | frontend/src/features/canvas/IAICanvas.tsx:419-423 | the result lies within the bounds, equals the input when the input does, and is the nearer bound otherwise |
| `CanvasInput.Wheel` | frontend/src/features/canvas/IAICanvas.tsx:393-432 | no-op unless on the outpainting tab with a stage, no move-stage key and a pointer; otherwise the scale becomes the clamped product with the factor for the (ctrl-negated) delta and lies within the bounds, and only scale and position change |
| `CanvasInput.WheelKeepsPointUnderCursor` | frontend/src/features/canvas/IAICanvas.tsx:402-428 | after a zoom the logical stage point under the pointer is the one that was under it before, and the scale is within the bounds |
| `CanvasInput.ZoomKeepsPoint` | frontend/src/features/canvas/IAICanvas.tsx:406-428 | re-anchoring the stage at the pointer for any non-zero new scale keeps the logical point under the pointer |
| `CanvasInput.DragStage` | frontend/src/features/canvas/IAICanvas.tsx:434-437 | the stage position follows the drag only while the move-stage key is held; scale and strokes never change |
| `CanvasInput.Step` | frontend/src/features/canvas/IAICanvas.tsx:449-457 | every handler keeps the scale within its bounds and every stroke a non-empty list of x, y pairs |
| `CanvasInput.Run` | frontend/src/features/canvas/IAICanvas.tsx:443-457 | after any sequence of events the state invariant holds, in particular the scale lies within its bounds |
| `CanvasInput.MovesExtendStroke` | frontend/src/features/canvas/IAICanvas.tsx:261-293 | while drawing is allowed, a sequence of moves appends exactly their points, in order, to the current stroke, raises the move flag iff there was a move, and keeps drawing on |
| `CanvasInput.StrokeSession` | frontend/src/features/canvas/IAICanvas.tsx:219-337 | a pointer-down, moves and pointer-up add exactly one stroke of half the brush size to the tool's list, holding the down point and then the move points; a click without moves adds the up point too (a dot) unless a move flag was left set before; drawing and move flag end cleared |
| `CanvasInput.BrushStrokeExample` | frontend/src/features/canvas/IAICanvas.tsx:232-292 | brush size 20, down at (10,10), move to (15,10), up: one line of width 10 with points 10,10,15,10 |
| `CanvasInput.EraserClickExample` | frontend/src/features/canvas/IAICanvas.tsx:300-332 | an image-eraser click at (5,5) without moving adds one eraser line with points 5,5,5,5 |
| `CanvasInput.ClickAfterCutOffStroke` | frontend/src/features/canvas/IAICanvas.tsx:300-347 | down, move, leave, then a click: the click's stroke holds one point only, as the move flag is never reset |
| `CanvasInput.DraggableStageIgnoresWheel` | frontend/src/features/canvas/IAICanvas.tsx:400-436 | while the stage is draggable the wheel never zooms, and a drag to any position moves the stage there and changes nothing else |
| `CanvasController.Canvas.constructor` | frontend/src/features/canvas/IAICanvas.tsx:181-184 | a fresh canvas is valid: not drawing, no cursor, move flag clear, last cursor at the origin, no strokes, the given scale and position |
| `CanvasController.Canvas.AddStroke` | frontend/src/features/canvas/IAICanvas.tsx:234-251 | appends the new stroke as `CanvasInput.AddStroke` does |
| `CanvasController.Canvas.ExtendCurrentStroke` | frontend/src/features/canvas/IAICanvas.tsx:281-292 | extends the current stroke of the tool's list in place |
| `CanvasController.Canvas.HandleMouseDown` | frontend/src/features/canvas/IAICanvas.tsx:219-254 | keeps the invariant and reaches `CanvasInput.MouseDown` of the old state |
| `CanvasController.Canvas.HandleMouseMove` | frontend/src/features/canvas/IAICanvas.tsx:261-293 | keeps the invariant and reaches `CanvasInput.MouseMove` of the old state |
| `CanvasController.Canvas.HandleMouseUp` | frontend/src/features/canvas/IAICanvas.tsx:300-337 | keeps the invariant and reaches `CanvasInput.MouseUp` of the old state |
| `CanvasController.Canvas.HandleMouseOutCanvas` | frontend/src/features/canvas/IAICanvas.tsx:344-347 | keeps the invariant and reaches `CanvasInput.MouseOut` of the old state |
| `CanvasController.Canvas.HandleMouseEnter` | frontend/src/features/canvas/IAICanvas.tsx:354-391 | keeps the invariant and reaches `CanvasInput.MouseEnter` of the old state |
| `CanvasController.Canvas.HandleWheel` | frontend/src/features/canvas/IAICanvas.tsx:393-432 | keeps the invariant (scale within bounds) and reaches `CanvasInput.Wheel` of the old state |
| `CanvasController.Canvas.HandleDragStage` | frontend/src/features/canvas/IAICanvas.tsx:434-437 | keeps the invariant and reaches `CanvasInput.DragStage` of the old state |
| `CanvasController.ClickThenZoom` | frontend/src/features/canvas/IAICanvas.tsx:300-336 | a brush click on a canvas with the move flag clear leaves one new dot line, and a following wheel turn leaves the strokes alone |
| `MaskCompositer.Select` | frontend/src/features/canvas/IAICanvasMaskCompositer.tsx:8-21 | the view carries the canvas's lines, stage position, size and scale, and the mask colour's string |
| `MaskCompositer.SelectReadsOnlyItsFields` | frontend/src/features/canvas/IAICanvasMaskCompositer.tsx:11-19 | two canvases that agree on lines, mask colour, stage position, size and scale give the same view |
| `MaskCompositer.CompositerRect` | frontend/src/features/canvas/IAICanvasMaskCompositer.tsx:25-41 | width and height times the scale give the viewport size; offsets times the scale give the stage position; fill is the mask colour and the composite operation `source-in`; every attribute the caller passes replaces the computed one |
| `MaskCompositer.RectCoversViewport` | frontend/src/features/canvas/IAICanvasMaskCompositer.tsx:33-36 | under the stage transform the rectangle's corners land on (0,0) and on the viewport's width and height, and its top-left is the logical point under the viewport's top-left |
| `GenerationStream.NatToStringRoundTrip` | server/views.py:58-61 | the decimal rendering of a count is injective: parsing its digits gives the count back |
| `GenerationStream.IntToStringRoundTrip` | server/views.py:58-61 | the rendering standing for the f-string's `{x}` is injective on integers: it is a well-formed integer string that parses back to the integer |
| `GenerationStream.UpscaleAction` | server/views.py:51-56 | no notice until the generated count reaches the iterations; then `upscaling-started` exactly while the upscaled count is below them, and `upscaling-done` from then on |
| `GenerationStream.ImageDoneEvents` | server/views.py:35-62 | one call queues the result (url, seed, config) first; a second event exactly when upscaling is requested and the generated count has reached the iterations; it is progress `upscaling-started` while upscaled is below the iterations and done `upscaling-done` otherwise, with count "upscaled+1/iterations" |
| `GenerationStream.ImageDoneAddsOneResult` | server/views.py:36-39 | every `image_done` call queues exactly one result event |
| `GenerationStream.GenerationSession.constructor` | server/views.py:26-29 | counters start at zero with an empty queue |
| `GenerationStream.GenerationSession.ImageDone` | server/views.py:35-62 | an upscaled image raises only the upscaled counter, any other only the generated counter; the queue grows by `ImageDoneEvents` of the new counters; results queued stay equal to the counters' sum |
| `GenerationStream.GenerationSession.QueueUpscaleNotice` | server/views.py:50-62 | the tail of `image_done` appends exactly the notice `UpscaleNotice` calls for under the current counters, and leaves the counters alone |
| `GenerationStream.GenerationSession.ImageProgress` | server/views.py:64-72 | queues a progress event with step + 1 and the url; counters unchanged |
| `GenerationStream.GenerationSession.ImageCanceled` | server/views.py:74-78 | queues an event of type `cancelled` with empty data |
| `GenerationStream.GenerationSession.Done` | server/views.py:80-81 | queues a `done` event without data |
| `GenerationStream.Responses` | server/views.py:92-106 | the generator never yields more lines than events, nor more than one past the first terminator, and nothing when the first event is `done` |
| `GenerationStream.StopIndex` | server/views.py:92-106 | the index of the first `done` or `canceled` event; none before it |
| `GenerationStream.ResponsesBeforeStop` | server/views.py:92-106 | the lines yielded are the data of the progress and result events before the first terminator, in queue order, plus the data of a `canceled` terminator |
| `GenerationStream.GenerateResponse` | server/views.py:92-106 | the loop yields exactly the specified lines and reports a stop iff the queue holds a terminator |
| `GenerationStream.CancelledEventIgnored` | server/views.py:74-103 | an event of type `cancelled`, as the cancel callback writes it, neither yields a line nor stops the stream |
| `GenerationStream.DoneEndsStream` | server/views.py:93-106 | the first `done` ends the stream without being yielded, whatever follows |
| `GenerationStream.UpscalingDoneNeverStreamed` | server/views.py:52-106 | on a queue the callbacks built, no yielded line is the `upscaling-done` notice |
| `GalleryPreview.SearchedImages` | frontend/src/features/gallery/CurrentImagePreview.tsx:23-26 | the searched list is the current image's category, or the results with no current image |
| `GalleryPreview.FindIndex` | frontend/src/features/gallery/CurrentImagePreview.tsx:27-29 | the first index whose uuid matches the current image's, or -1 exactly when none does |
| `GalleryPreview.ImagesSelector` | frontend/src/features/gallery/CurrentImagePreview.tsx:17-43 | the intermediate image is shown when present, else the current one; first iff the list's first image matches; last iff the list is empty or its last image is the first match; the two button flags equal the first and last flags |
| `GalleryPreview.MissingImageIsNeitherEnd` | frontend/src/features/gallery/CurrentImagePreview.tsx:27-37 | a current image missing from a non-empty list is neither first nor last |
| `GalleryPreview.EmptyListIsLastOnly` | frontend/src/features/gallery/CurrentImagePreview.tsx:35-37 | an empty list counts as last and not as first |
| `GalleryPreview.RenderedButtons` | frontend/src/features/gallery/CurrentImagePreview.tsx:94-123 | previous shows iff details are hidden, the hover flag is set and the image is not first; next likewise with not last |
| `GalleryPreview.ButtonsFollowPosition` | frontend/src/features/gallery/CurrentImagePreview.tsx:35-41 | hovering the only image of its list shows neither button; hovering one strictly inside the list shows both |
| `GalleryPreview.CurrentImagePreview.constructor` | frontend/src/features/gallery/CurrentImagePreview.tsx:61-62 | the hover flag starts lowered |
| `GalleryPreview.CurrentImagePreview.HandleMouseOver` | frontend/src/features/gallery/CurrentImagePreview.tsx:64-66 | raises the hover flag |
| `GalleryPreview.CurrentImagePreview.HandleMouseOut` | frontend/src/features/gallery/CurrentImagePreview.tsx:68-70 | lowers the hover flag |
| `GalleryPreview.CurrentImagePreview.Shown` | frontend/src/features/gallery/CurrentImagePreview.tsx:101-115 | with the hover flag lowered no button shows; previous shows only off the first image and next only off the last, neither while details show |

## Left out

- Konva and React rendering: pixel compositing and blend-mode arithmetic are out of scope. Visibility and composite-operation choices are kept as values only.
- The background image load (`useEffect` with `onload`/`onerror`, the toast and `clearImageToInpaint`) is browser I/O and is not modelled.
- The `resultEqualityCheck` memoisation of both selectors is a caching concern only. Each selector is a plain function.
- The exported mutable refs, `useCanvasHotkeys` and `preventDefault` calls have no effect on the modelled state and are not modelled.
- `getScaledCursorPosition`, `rgbaColorToString`, the canvas reducers, `selectNextImage`/`selectPrevImage`, the lightbox and `ImageMetadataViewer` are not part of this model. They appear as parameters or as the stated assumptions above.
- `addPointToCurrentLine` and `addPointToCurrentEraserLine` on an empty list are modelled as leaving the list alone, because the reducer is not part of this model.
- `CanvasInput.Wheel`: reads the stage position from `stageCoordinates`. The source reads it from the stage node, which the component renders from `stageCoordinates`.
- `CanvasInput.Wheel`: requires the current scale to be positive, which the state invariant provides.
- `CanvasSelector.Tool`: the tool type is not part of this model. The tools are taken to be brush, eraser and image eraser.
- server/views.py Flask plumbing is not modelled: static files, `Response`/`stream_with_context`, `WebConfig`, `ApiIndex`, `ApiCancel`, `ApiImages`, `ApiIntermediates`, `DreamRequest.from_json` and the job queue push.
- The cross-thread `Queue` handoff is concurrency and is not modelled. The queue is a sequence, and a queue without a terminator stands for the generator waiting for more events.
- The JSON encoding of each yielded line is not modelled. A line is the event's data payload.
- `dreamRequest.upscale` becomes a boolean, its truthiness.
- server/containers.py is dependency-injection wiring with no logic, and is not modelled.
- All coordinates, widths and scales are exact reals, so floating-point rounding and NaN are not modelled. This concerns `CanvasInput.Wheel`, `CanvasInput.WheelKeepsPointUnderCursor`, `CanvasInput.ZoomKeepsPoint`, `MaskCompositer.CompositerRect` and `MaskCompositer.RectCoversViewport`. Their equalities (width / scale * scale == width, corners exactly on the viewport, the logical point kept) hold over reals; in IEEE doubles they hold only up to rounding.
- `CanvasInput.Run`: holds the settings (tool, brush size, move-stage key, box flags, tab) and the mounted refs fixed for the whole event sequence. In the program they can change between events; a change can only be modelled by running the parts of the sequence in turn, each with its own settings.
- `CanvasController.Canvas.constructor`: takes the initial scale within the limits and starts with no strokes and not drawing. The initial redux state comes from the canvas reducers, which are not part of this model.
