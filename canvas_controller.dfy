/**
 * The canvas component's event handlers as methods of an object holding the
 * state they update: drawing flag, cursor, the move flag and last-cursor
 * refs, the two stroke lists, and the stage scale and position. Each method
 * updates the fields step by step as the handler dispatches, and is proved
 * to reach the state its transition function in `CanvasInput` describes.
 */
module CanvasController {
  import opened Wrappers
  import opened Geometry
  import opened CanvasSelector
  import opened CanvasInput

  class Canvas {
    var isDrawing: bool
    var cursorPosition: Option<Point>
    var didMouseMove: bool
    var lastCursorPosition: Point
    var lines: seq<MaskLine>
    var eraserLines: seq<EraserLine>
    var stageScale: real
    var stageCoordinates: Point

    /** MIN_CANVAS_SCALE and MAX_CANVAS_SCALE. */
    const limits: ScaleLimits
    /** `delta => CANVAS_SCALE_BY ** delta`. */
    const scaleBy: real -> real

    function State(): CanvasState
      reads this
    {
      CanvasState(isDrawing, cursorPosition, didMouseMove, lastCursorPosition,
                  lines, eraserLines, stageScale, stageCoordinates)
    }

    ghost predicate Valid()
      reads this
    {
      ValidState(State(), limits)
    }

    constructor (limits: ScaleLimits, scaleBy: real -> real, scale: real, coordinates: Point)
      requires ValidLimits(limits) && limits.minScale <= scale <= limits.maxScale
      ensures Valid() && this.limits == limits && this.scaleBy == scaleBy
      ensures State() == CanvasState(false, None, false, Point(0.0, 0.0), [], [], scale, coordinates)
    {
      this.limits := limits;
      this.scaleBy := scaleBy;
      isDrawing := false;
      cursorPosition := None;
      didMouseMove := false;
      lastCursorPosition := Point(0.0, 0.0);
      lines := [];
      eraserLines := [];
      stageScale := scale;
      stageCoordinates := coordinates;
    }

    /** Adds a new stroke seeded with `p` to the list the tool writes to. */
    method AddStroke(s: Settings, p: Point)
      modifies this
      ensures State() == CanvasInput.AddStroke(old(State()), s, p)
    {
      if s.tool == ImageEraser {
        eraserLines := eraserLines + [EraserLine(s.brushSize / 2.0, [p.x, p.y])];
      } else {
        lines := lines + [MaskLine(s.tool, s.brushSize / 2.0, [p.x, p.y])];
      }
    }

    /** Appends `p` to the current stroke of the list the tool writes to. */
    method ExtendCurrentStroke(tool: Tool, p: Point)
      modifies this
      ensures State() == ExtendStroke(old(State()), tool, Pair(p))
    {
      if tool == ImageEraser {
        if |eraserLines| > 0 {
          var last := eraserLines[|eraserLines| - 1];
          eraserLines := eraserLines[..|eraserLines| - 1] + [last.(points := last.points + [p.x, p.y])];
        }
      } else {
        if |lines| > 0 {
          var last := lines[|lines| - 1];
          lines := lines[..|lines| - 1] + [last.(points := last.points + [p.x, p.y])];
        }
      }
    }

    method HandleMouseDown(s: Settings, surface: Surface, cursor: Option<Point>)
      requires Valid()
      modifies this
      ensures Valid() && State() == MouseDown(old(State()), s, surface, cursor)
    {
      if !surface.hasStage {
        return;
      }
      if cursor.None? || !surface.hasMaskLayer || IsModifyingBoundingBox(s) || s.isMoveStageKeyHeld {
        return;
      }
      isDrawing := true;
      AddStroke(s, cursor.value);
    }

    method HandleMouseMove(s: Settings, surface: Surface, cursor: Option<Point>)
      requires Valid()
      modifies this
      ensures Valid() && State() == MouseMove(old(State()), s, surface, cursor)
    {
      if !surface.hasStage || cursor.None? {
        return;
      }
      var p := cursor.value;
      cursorPosition := Some(p);
      if !surface.hasMaskLayer {
        return;
      }
      lastCursorPosition := p;
      if !isDrawing || IsModifyingBoundingBox(s) || s.isMoveStageKeyHeld {
        return;
      }
      didMouseMove := true;
      ExtendCurrentStroke(s.tool, p);
    }

    method HandleMouseUp(s: Settings, surface: Surface, cursor: Option<Point>)
      requires Valid()
      modifies this
      ensures Valid() && State() == MouseUp(old(State()), s, surface, cursor)
    {
      if !didMouseMove && isDrawing && surface.hasStage {
        if cursor.None? || !surface.hasMaskLayer || IsModifyingBoundingBox(s) || s.isMoveStageKeyHeld {
          return;
        }
        ExtendCurrentStroke(s.tool, cursor.value);
      } else {
        didMouseMove := false;
      }
      isDrawing := false;
    }

    method HandleMouseOutCanvas()
      requires Valid()
      modifies this
      ensures Valid() && State() == MouseOut(old(State()))
    {
      cursorPosition := None;
      isDrawing := false;
    }

    method HandleMouseEnter(s: Settings, surface: Surface, cursor: Option<Point>, buttons: int)
      requires Valid()
      modifies this
      ensures Valid() && State() == MouseEnter(old(State()), s, surface, cursor, buttons)
    {
      if buttons == 1 {
        if !surface.hasStage {
          return;
        }
        if cursor.None? || !surface.hasMaskLayer || IsModifyingBoundingBox(s) || s.isMoveStageKeyHeld {
          return;
        }
        isDrawing := true;
        AddStroke(s, cursor.value);
      }
    }

    method HandleWheel(s: Settings, surface: Surface, pointer: Option<Point>, deltaY: real, ctrlKey: bool)
      requires Valid()
      modifies this
      ensures Valid() && State() == Wheel(old(State()), s, surface, pointer, deltaY, ctrlKey, scaleBy, limits)
    {
      if s.activeTabName != "outpainting" {
        return;
      }
      if !surface.hasStage || s.isMoveStageKeyHeld {
        return;
      }
      if pointer.None? {
        return;
      }
      var cursorPos := pointer.value;
      var mousePointTo := Logical(cursorPos, stageCoordinates, stageScale);
      var delta := WheelDelta(deltaY, ctrlKey);
      var newScale := Clamp(stageScale * scaleBy(delta), limits.minScale, limits.maxScale);
      var newPos := Point(cursorPos.x - mousePointTo.x * newScale, cursorPos.y - mousePointTo.y * newScale);
      assert Wheel(State(), s, surface, pointer, deltaY, ctrlKey, scaleBy, limits)
          == State().(stageScale := newScale, stageCoordinates := newPos);
      stageScale := newScale;
      stageCoordinates := newPos;
    }

    method HandleDragStage(s: Settings, position: Point)
      requires Valid()
      modifies this
      ensures Valid() && State() == DragStage(old(State()), s, position)
    {
      if !s.isMoveStageKeyHeld {
        return;
      }
      stageCoordinates := position;
    }
  }

  /** Drives one object through a click and a wheel turn, using the methods' contracts alone. */
  method ClickThenZoom(canvas: Canvas, s: Settings, surface: Surface, p: Point, deltaY: real)
    requires canvas.Valid() && !canvas.didMouseMove && DrawingAllowed(s, surface) && s.tool == Brush
    modifies canvas
    ensures canvas.Valid()
    ensures canvas.lines == old(canvas.lines) + [MaskLine(Brush, s.brushSize / 2.0, [p.x, p.y, p.x, p.y])]
    ensures canvas.eraserLines == old(canvas.eraserLines) && !canvas.isDrawing
  {
    canvas.HandleMouseDown(s, surface, Some(p));
    canvas.HandleMouseUp(s, surface, Some(p));
    assert canvas.lines == old(canvas.lines) + [MaskLine(Brush, s.brushSize / 2.0, [p.x, p.y] + [p.x, p.y])];
    assert [p.x, p.y] + [p.x, p.y] == [p.x, p.y, p.x, p.y];
    canvas.HandleWheel(s, surface, Some(p), deltaY, false);
  }
}
