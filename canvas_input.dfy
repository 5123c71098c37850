/**
 * The canvas input controller as a state machine over values: one
 * transition function per event handler of the canvas component, a
 * step/run over event sequences, and the properties of whole strokes and of
 * wheel zoom.
 *
 * The three stage refs the handlers consult are summarised by `Surface`;
 * the scaled cursor position they obtain from the stage is an event
 * parameter, `None` when the stage reports no pointer.
 */
module CanvasInput {
  import opened Wrappers
  import opened Geometry
  import opened CanvasSelector

  /** A mask stroke, tagged with the tool that drew it; points are flat x, y pairs. */
  datatype MaskLine = MaskLine(tool: Tool, strokeWidth: real, points: seq<real>)

  /** An eraser stroke of the image eraser. */
  datatype EraserLine = EraserLine(strokeWidth: real, points: seq<real>)

  /** Whether the stage ref and the mask layer ref are mounted. */
  datatype Surface = Surface(hasStage: bool, hasMaskLayer: bool)

  /** MIN_CANVAS_SCALE and MAX_CANVAS_SCALE. */
  datatype ScaleLimits = ScaleLimits(minScale: real, maxScale: real)

  /** What the handlers read and write: redux state plus the component's two refs. */
  datatype CanvasState = CanvasState(
    isDrawing: bool,
    cursorPosition: Option<Point>,
    didMouseMove: bool,
    lastCursorPosition: Point,
    lines: seq<MaskLine>,
    eraserLines: seq<EraserLine>,
    stageScale: real,
    stageCoordinates: Point)

  predicate ValidLimits(l: ScaleLimits) {
    0.0 < l.minScale <= l.maxScale
  }

  /** A stroke's points are a non-empty list of x, y pairs. */
  predicate IsPointList(points: seq<real>) {
    |points| > 0 && |points| % 2 == 0
  }

  /** The state invariant: the scale lies within its bounds and every stroke is a pair list. */
  predicate ValidState(st: CanvasState, l: ScaleLimits) {
    && ValidLimits(l)
    && l.minScale <= st.stageScale <= l.maxScale
    && (forall i :: 0 <= i < |st.lines| ==> IsPointList(st.lines[i].points))
    && (forall i :: 0 <= i < |st.eraserLines| ==> IsPointList(st.eraserLines[i].points))
  }

  function Pair(p: Point): seq<real> {
    [p.x, p.y]
  }

  /** The guard shared by pointer-down, mouse-enter and the dot branch of pointer-up. */
  predicate CanStartStroke(s: Settings, surface: Surface, cursor: Option<Point>) {
    && surface.hasStage
    && cursor.Some?
    && surface.hasMaskLayer
    && !IsModifyingBoundingBox(s)
    && !s.isMoveStageKeyHeld
  }

  /** The guard under which pointer-move extends the current stroke. */
  predicate CanExtendStroke(st: CanvasState, s: Settings, surface: Surface, cursor: Option<Point>) {
    CanStartStroke(s, surface, cursor) && st.isDrawing
  }

  /** `addLine` / `addEraserLine`: a new stroke of half the brush size, seeded with one point. */
  function AddStroke(st: CanvasState, s: Settings, p: Point): (r: CanvasState)
    ensures r.(lines := st.lines, eraserLines := st.eraserLines) == st
    ensures s.tool == ImageEraser ==>
      r.lines == st.lines && r.eraserLines == st.eraserLines + [EraserLine(s.brushSize / 2.0, [p.x, p.y])]
    ensures s.tool != ImageEraser ==>
      r.eraserLines == st.eraserLines && r.lines == st.lines + [MaskLine(s.tool, s.brushSize / 2.0, [p.x, p.y])]
  {
    if s.tool == ImageEraser then
      st.(eraserLines := st.eraserLines + [EraserLine(s.brushSize / 2.0, Pair(p))])
    else
      st.(lines := st.lines + [MaskLine(s.tool, s.brushSize / 2.0, Pair(p))])
  }

  /** `addPointToCurrentLine`: extends the last mask line; an empty list is left alone. */
  function ExtendLine(lines: seq<MaskLine>, pts: seq<real>): (r: seq<MaskLine>)
    ensures |r| == |lines|
    ensures forall i :: 0 <= i < |lines| - 1 ==> r[i] == lines[i]
    ensures |lines| > 0 ==>
      var last := lines[|lines| - 1];
      r[|lines| - 1] == MaskLine(last.tool, last.strokeWidth, last.points + pts)
  {
    if |lines| == 0 then lines
    else
      var last := lines[|lines| - 1];
      lines[..|lines| - 1] + [last.(points := last.points + pts)]
  }

  /** `addPointToCurrentEraserLine`: extends the last eraser line; an empty list is left alone. */
  function ExtendEraserLine(lines: seq<EraserLine>, pts: seq<real>): (r: seq<EraserLine>)
    ensures |r| == |lines|
    ensures forall i :: 0 <= i < |lines| - 1 ==> r[i] == lines[i]
    ensures |lines| > 0 ==>
      var last := lines[|lines| - 1];
      r[|lines| - 1] == EraserLine(last.strokeWidth, last.points + pts)
  {
    if |lines| == 0 then lines
    else
      var last := lines[|lines| - 1];
      lines[..|lines| - 1] + [last.(points := last.points + pts)]
  }

  /** Appends points to the current stroke of the list the tool writes to. */
  function ExtendStroke(st: CanvasState, tool: Tool, pts: seq<real>): CanvasState {
    if tool == ImageEraser then st.(eraserLines := ExtendEraserLine(st.eraserLines, pts))
    else st.(lines := ExtendLine(st.lines, pts))
  }

  /** Pointer-down: when the guard holds, start drawing a new stroke at the cursor. */
  function MouseDown(st: CanvasState, s: Settings, surface: Surface, cursor: Option<Point>): (r: CanvasState)
    ensures !CanStartStroke(s, surface, cursor) ==> r == st
    ensures CanStartStroke(s, surface, cursor) ==>
      && r.isDrawing
      && r.(isDrawing := st.isDrawing, lines := st.lines, eraserLines := st.eraserLines) == st
      && (s.tool == ImageEraser ==>
            && r.lines == st.lines
            && r.eraserLines == st.eraserLines + [EraserLine(s.brushSize / 2.0, [cursor.value.x, cursor.value.y])])
      && (s.tool != ImageEraser ==>
            && r.eraserLines == st.eraserLines
            && r.lines == st.lines + [MaskLine(s.tool, s.brushSize / 2.0, [cursor.value.x, cursor.value.y])])
  {
    if !surface.hasStage then st
    else if cursor.None? || !surface.hasMaskLayer || IsModifyingBoundingBox(s) || s.isMoveStageKeyHeld then st
    else AddStroke(st.(isDrawing := true), s, cursor.value)
  }

  /**
   * Pointer-move: record the cursor whenever there is one; while drawing is
   * allowed, mark the move and extend the stroke of the tool current now.
   */
  function MouseMove(st: CanvasState, s: Settings, surface: Surface, cursor: Option<Point>): (r: CanvasState)
    ensures !(surface.hasStage && cursor.Some?) ==> r == st
    ensures surface.hasStage && cursor.Some? ==> r.cursorPosition == cursor
    ensures r.lastCursorPosition ==
      if surface.hasStage && cursor.Some? && surface.hasMaskLayer then cursor.value else st.lastCursorPosition
    ensures r.didMouseMove <==> st.didMouseMove || CanExtendStroke(st, s, surface, cursor)
    ensures r.isDrawing == st.isDrawing
    ensures r.stageScale == st.stageScale && r.stageCoordinates == st.stageCoordinates
    ensures !CanExtendStroke(st, s, surface, cursor) ==> r.lines == st.lines && r.eraserLines == st.eraserLines
    ensures CanExtendStroke(st, s, surface, cursor) ==>
      && (s.tool == ImageEraser ==>
            r.lines == st.lines && r.eraserLines == ExtendEraserLine(st.eraserLines, Pair(cursor.value)))
      && (s.tool != ImageEraser ==>
            r.eraserLines == st.eraserLines && r.lines == ExtendLine(st.lines, Pair(cursor.value)))
  {
    if !surface.hasStage || cursor.None? then st
    else
      var p := cursor.value;
      var st1 := st.(cursorPosition := Some(p));
      if !surface.hasMaskLayer then st1
      else
        var st2 := st1.(lastCursorPosition := p);
        if !st2.isDrawing || IsModifyingBoundingBox(s) || s.isMoveStageKeyHeld then st2
        else ExtendStroke(st2.(didMouseMove := true), s.tool, Pair(p))
  }

  /**
   * Pointer-up: a stroke without recorded moves gets the cursor point again
   * (a dot), unless the guard fails, in which case the handler returns with
   * drawing still on; in every other case the move flag is reset. Drawing
   * is then switched off.
   */
  function MouseUp(st: CanvasState, s: Settings, surface: Surface, cursor: Option<Point>): (r: CanvasState)
    ensures !st.didMouseMove && st.isDrawing && surface.hasStage && !CanStartStroke(s, surface, cursor) ==>
      r == st
    ensures !st.didMouseMove && st.isDrawing && CanStartStroke(s, surface, cursor) ==>
      && !r.isDrawing && !r.didMouseMove
      && r.(lines := st.lines, eraserLines := st.eraserLines, isDrawing := true) == st
      && (s.tool == ImageEraser ==>
            r.lines == st.lines && r.eraserLines == ExtendEraserLine(st.eraserLines, Pair(cursor.value)))
      && (s.tool != ImageEraser ==>
            r.eraserLines == st.eraserLines && r.lines == ExtendLine(st.lines, Pair(cursor.value)))
    ensures st.didMouseMove || !st.isDrawing || !surface.hasStage ==>
      r == st.(didMouseMove := false, isDrawing := false)
  {
    if !st.didMouseMove && st.isDrawing && surface.hasStage then
      if cursor.None? || !surface.hasMaskLayer || IsModifyingBoundingBox(s) || s.isMoveStageKeyHeld then st
      else ExtendStroke(st, s.tool, Pair(cursor.value)).(isDrawing := false)
    else
      st.(didMouseMove := false).(isDrawing := false)
  }

  /** Mouse out / leave: drop the cursor and stop drawing; strokes and the move flag stay. */
  function MouseOut(st: CanvasState): (r: CanvasState)
    ensures r.cursorPosition == None && !r.isDrawing
    ensures r.lines == st.lines && r.eraserLines == st.eraserLines
    ensures r.didMouseMove == st.didMouseMove && r.lastCursorPosition == st.lastCursorPosition
    ensures r.stageScale == st.stageScale && r.stageCoordinates == st.stageCoordinates
  {
    st.(cursorPosition := None).(isDrawing := false)
  }

  /** Mouse enter with the primary button alone held starts a stroke exactly as pointer-down does. */
  function MouseEnter(st: CanvasState, s: Settings, surface: Surface, cursor: Option<Point>, buttons: int): (r: CanvasState)
    ensures buttons != 1 ==> r == st
    ensures buttons == 1 ==> r == MouseDown(st, s, surface, cursor)
    ensures !CanStartStroke(s, surface, cursor) ==> r == st
  {
    if buttons == 1 then
      if !surface.hasStage then st
      else if cursor.None? || !surface.hasMaskLayer || IsModifyingBoundingBox(s) || s.isMoveStageKeyHeld then st
      else AddStroke(st.(isDrawing := true), s, cursor.value)
    else st
  }

  /** lodash `_.clamp`: cap at the upper bound first, then raise to the lower bound. */
  function Clamp(n: real, lower: real, upper: real): (r: real)
    ensures lower <= upper ==> lower <= r <= upper
    ensures lower <= n <= upper ==> r == n
    ensures lower <= upper < n ==> r == upper
    ensures n < lower ==> r == lower
  {
    var capped := if n <= upper then n else upper;
    if capped >= lower then capped else lower
  }

  /** The logical stage point under a viewport point, for a given stage position and scale. */
  function Logical(p: Point, coordinates: Point, scale: real): Point
    requires scale != 0.0
  {
    Point((p.x - coordinates.x) / scale, (p.y - coordinates.y) / scale)
  }

  /** Wheel zoom is enabled on the outpainting tab, with a stage, no move-stage key and a pointer. */
  predicate CanZoom(s: Settings, surface: Surface, pointer: Option<Point>) {
    s.activeTabName == "outpainting" && surface.hasStage && !s.isMoveStageKeyHeld && pointer.Some?
  }

  /** The wheel delta, negated when ctrl is held (trackpad pinch). */
  function WheelDelta(deltaY: real, ctrlKey: bool): real {
    if ctrlKey then -deltaY else deltaY
  }

  /**
   * Wheel: scale by `scaleBy(delta)` (the power `CANVAS_SCALE_BY ** delta`),
   * clamp, and move the stage so that the logical point under the pointer
   * stays under it.
   */
  function Wheel(st: CanvasState, s: Settings, surface: Surface, pointer: Option<Point>,
                 deltaY: real, ctrlKey: bool, scaleBy: real -> real, l: ScaleLimits): (r: CanvasState)
    requires st.stageScale > 0.0
    ensures !CanZoom(s, surface, pointer) ==> r == st
    ensures CanZoom(s, surface, pointer) ==>
      && r.stageScale == Clamp(st.stageScale * scaleBy(WheelDelta(deltaY, ctrlKey)), l.minScale, l.maxScale)
      && r == st.(stageScale := r.stageScale, stageCoordinates := r.stageCoordinates)
    ensures CanZoom(s, surface, pointer) && ValidLimits(l) ==> l.minScale <= r.stageScale <= l.maxScale
  {
    if s.activeTabName != "outpainting" then st
    else if !surface.hasStage || s.isMoveStageKeyHeld then st
    else if pointer.None? then st
    else
      var cursorPos := pointer.value;
      var mousePointTo := Logical(cursorPos, st.stageCoordinates, st.stageScale);
      var newScale := Clamp(st.stageScale * scaleBy(WheelDelta(deltaY, ctrlKey)), l.minScale, l.maxScale);
      var newPos := Point(cursorPos.x - mousePointTo.x * newScale, cursorPos.y - mousePointTo.y * newScale);
      st.(stageScale := newScale, stageCoordinates := newPos)
  }

  /** A zoom keeps the logical point under the pointer where it was. */
  lemma WheelKeepsPointUnderCursor(st: CanvasState, s: Settings, surface: Surface, pointer: Option<Point>,
                                   deltaY: real, ctrlKey: bool, scaleBy: real -> real, l: ScaleLimits)
    requires st.stageScale > 0.0 && ValidLimits(l) && CanZoom(s, surface, pointer)
    ensures var r := Wheel(st, s, surface, pointer, deltaY, ctrlKey, scaleBy, l);
      && l.minScale <= r.stageScale <= l.maxScale
      && Logical(pointer.value, r.stageCoordinates, r.stageScale)
         == Logical(pointer.value, st.stageCoordinates, st.stageScale)
  {
    var newScale := Clamp(st.stageScale * scaleBy(WheelDelta(deltaY, ctrlKey)), l.minScale, l.maxScale);
    ZoomKeepsPoint(pointer.value, st.stageCoordinates, st.stageScale, newScale);
  }

  /** Re-anchoring the stage at the pointer keeps the logical point under it. */
  lemma ZoomKeepsPoint(cursor: Point, oldPos: Point, oldScale: real, newScale: real)
    requires oldScale != 0.0
    ensures newScale != 0.0 ==>
      var m := Logical(cursor, oldPos, oldScale);
      Logical(cursor, Point(cursor.x - m.x * newScale, cursor.y - m.y * newScale), newScale) == m
  {
    if newScale != 0.0 {
      var m := Logical(cursor, oldPos, oldScale);
      assert cursor.x - (cursor.x - m.x * newScale) == m.x * newScale;
      assert cursor.y - (cursor.y - m.y * newScale) == m.y * newScale;
    }
  }

  /** Stage drag moves the stage only while the move-stage key is held. */
  function DragStage(st: CanvasState, s: Settings, position: Point): (r: CanvasState)
    ensures !s.isMoveStageKeyHeld ==> r == st
    ensures s.isMoveStageKeyHeld ==> r == st.(stageCoordinates := position)
    ensures r.stageScale == st.stageScale && r.lines == st.lines && r.eraserLines == st.eraserLines
  {
    if !s.isMoveStageKeyHeld then st else st.(stageCoordinates := position)
  }

  /** The events the stage delivers to the canvas component. */
  datatype Event =
    | PointerDown(cursor: Option<Point>)
    | PointerMove(cursor: Option<Point>)
    | PointerUp(cursor: Option<Point>)
    | PointerOut
    | PointerEnter(cursor: Option<Point>, buttons: int)
    | WheelTurn(pointer: Option<Point>, deltaY: real, ctrlKey: bool)
    | StageDrag(position: Point)

  lemma AddStrokeKeepsValid(st: CanvasState, s: Settings, p: Point, l: ScaleLimits)
    requires ValidState(st, l)
    ensures ValidState(AddStroke(st, s, p), l)
  {
  }

  lemma ExtendLineKeepsPointLists(lines: seq<MaskLine>, p: Point)
    requires forall i :: 0 <= i < |lines| ==> IsPointList(lines[i].points)
    ensures var r := ExtendLine(lines, Pair(p));
      forall i :: 0 <= i < |r| ==> IsPointList(r[i].points)
  {
  }

  lemma ExtendEraserLineKeepsPointLists(lines: seq<EraserLine>, p: Point)
    requires forall i :: 0 <= i < |lines| ==> IsPointList(lines[i].points)
    ensures var r := ExtendEraserLine(lines, Pair(p));
      forall i :: 0 <= i < |r| ==> IsPointList(r[i].points)
  {
  }

  lemma MouseDownKeepsValid(st: CanvasState, s: Settings, surface: Surface, cursor: Option<Point>, l: ScaleLimits)
    requires ValidState(st, l)
    ensures ValidState(MouseDown(st, s, surface, cursor), l)
  {
    if CanStartStroke(s, surface, cursor) {
      AddStrokeKeepsValid(st.(isDrawing := true), s, cursor.value, l);
    }
  }

  lemma MouseMoveKeepsValid(st: CanvasState, s: Settings, surface: Surface, cursor: Option<Point>, l: ScaleLimits)
    requires ValidState(st, l)
    ensures ValidState(MouseMove(st, s, surface, cursor), l)
  {
    if CanExtendStroke(st, s, surface, cursor) {
      ExtendLineKeepsPointLists(st.lines, cursor.value);
      ExtendEraserLineKeepsPointLists(st.eraserLines, cursor.value);
    }
  }

  lemma MouseUpKeepsValid(st: CanvasState, s: Settings, surface: Surface, cursor: Option<Point>, l: ScaleLimits)
    requires ValidState(st, l)
    ensures ValidState(MouseUp(st, s, surface, cursor), l)
  {
    if !st.didMouseMove && st.isDrawing && CanStartStroke(s, surface, cursor) {
      ExtendLineKeepsPointLists(st.lines, cursor.value);
      ExtendEraserLineKeepsPointLists(st.eraserLines, cursor.value);
    }
  }

  lemma WheelKeepsValid(st: CanvasState, s: Settings, surface: Surface, pointer: Option<Point>,
                        deltaY: real, ctrlKey: bool, scaleBy: real -> real, l: ScaleLimits)
    requires ValidState(st, l)
    ensures ValidState(Wheel(st, s, surface, pointer, deltaY, ctrlKey, scaleBy, l), l)
  {
  }

  /** Dispatches one event to its handler; every handler keeps the state invariant. */
  function Step(st: CanvasState, s: Settings, surface: Surface, scaleBy: real -> real,
                l: ScaleLimits, e: Event): (r: CanvasState)
    requires ValidState(st, l)
    ensures ValidState(r, l)
  {
    match e
    case PointerDown(c) => MouseDownKeepsValid(st, s, surface, c, l); MouseDown(st, s, surface, c)
    case PointerMove(c) => MouseMoveKeepsValid(st, s, surface, c, l); MouseMove(st, s, surface, c)
    case PointerUp(c) => MouseUpKeepsValid(st, s, surface, c, l); MouseUp(st, s, surface, c)
    case PointerOut => MouseOut(st)
    case PointerEnter(c, b) => MouseDownKeepsValid(st, s, surface, c, l); MouseEnter(st, s, surface, c, b)
    case WheelTurn(p, d, ctrl) => WheelKeepsValid(st, s, surface, p, d, ctrl, scaleBy, l); Wheel(st, s, surface, p, d, ctrl, scaleBy, l)
    case StageDrag(pos) => DragStage(st, s, pos)
  }

  /** Processes events in arrival order; after any number of them the scale is still in bounds. */
  function Run(st: CanvasState, s: Settings, surface: Surface, scaleBy: real -> real,
               l: ScaleLimits, events: seq<Event>): (r: CanvasState)
    requires ValidState(st, l)
    ensures ValidState(r, l)
    ensures l.minScale <= r.stageScale <= l.maxScale
    decreases |events|
  {
    if events == [] then st
    else Run(Step(st, s, surface, scaleBy, l, events[0]), s, surface, scaleBy, l, events[1..])
  }

  lemma {:induction false} RunAppend(st: CanvasState, s: Settings, surface: Surface, scaleBy: real -> real,
                                     l: ScaleLimits, a: seq<Event>, b: seq<Event>)
    requires ValidState(st, l)
    ensures Run(st, s, surface, scaleBy, l, a + b)
         == Run(Run(st, s, surface, scaleBy, l, a), s, surface, scaleBy, l, b)
    decreases |a|
  {
    if a == [] {
      assert a + b == b;
    } else {
      assert (a + b)[0] == a[0];
      assert (a + b)[1..] == a[1..] + b;
      RunAppend(Step(st, s, surface, scaleBy, l, a[0]), s, surface, scaleBy, l, a[1..], b);
    }
  }

  /** Pointer-move events at the given (already scaled) cursor positions. */
  function Moves(cursors: seq<Point>): seq<Event> {
    if cursors == [] then [] else [PointerMove(Some(cursors[0]))] + Moves(cursors[1..])
  }

  function Flatten(ps: seq<Point>): seq<real> {
    if ps == [] then [] else Pair(ps[0]) + Flatten(ps[1..])
  }

  /** The stage is mounted, the mask layer exists and nothing suppresses drawing. */
  predicate DrawingAllowed(s: Settings, surface: Surface) {
    surface.hasStage && surface.hasMaskLayer && !IsModifyingBoundingBox(s) && !s.isMoveStageKeyHeld
  }

  /** The list the tool writes to has a stroke to extend. */
  predicate HasCurrentStroke(st: CanvasState, tool: Tool) {
    if tool == ImageEraser then |st.eraserLines| > 0 else |st.lines| > 0
  }

  lemma ExtendLineTwice(lines: seq<MaskLine>, a: seq<real>, b: seq<real>)
    ensures ExtendLine(ExtendLine(lines, a), b) == ExtendLine(lines, a + b)
  {
    if |lines| > 0 {
      var last := lines[|lines| - 1];
      assert last.points + a + b == last.points + (a + b);
    }
  }

  lemma ExtendEraserLineTwice(lines: seq<EraserLine>, a: seq<real>, b: seq<real>)
    ensures ExtendEraserLine(ExtendEraserLine(lines, a), b) == ExtendEraserLine(lines, a + b)
  {
    if |lines| > 0 {
      var last := lines[|lines| - 1];
      assert last.points + a + b == last.points + (a + b);
    }
  }

  lemma ExtendByNothing(lines: seq<MaskLine>, eraserLines: seq<EraserLine>)
    ensures ExtendLine(lines, []) == lines
    ensures ExtendEraserLine(eraserLines, []) == eraserLines
  {
    if |lines| > 0 {
      assert lines[|lines| - 1].points + [] == lines[|lines| - 1].points;
      assert lines[..|lines| - 1] + [lines[|lines| - 1]] == lines;
    }
    if |eraserLines| > 0 {
      assert eraserLines[|eraserLines| - 1].points + [] == eraserLines[|eraserLines| - 1].points;
      assert eraserLines[..|eraserLines| - 1] + [eraserLines[|eraserLines| - 1]] == eraserLines;
    }
  }

  lemma ExtendAppendedLine(lines: seq<MaskLine>, last: MaskLine, pts: seq<real>)
    ensures ExtendLine(lines + [last], pts) == lines + [last.(points := last.points + pts)]
  {
    assert (lines + [last])[..|lines|] == lines;
  }

  lemma ExtendAppendedEraserLine(lines: seq<EraserLine>, last: EraserLine, pts: seq<real>)
    ensures ExtendEraserLine(lines + [last], pts) == lines + [last.(points := last.points + pts)]
  {
    assert (lines + [last])[..|lines|] == lines;
  }

  /** While drawing is allowed, each move appends its point to the current stroke, in order. */
  lemma {:induction false} MovesExtendStroke(st: CanvasState, s: Settings, surface: Surface, scaleBy: real -> real,
                                             l: ScaleLimits, cursors: seq<Point>)
    requires ValidState(st, l) && st.isDrawing && DrawingAllowed(s, surface) && HasCurrentStroke(st, s.tool)
    ensures var r := Run(st, s, surface, scaleBy, l, Moves(cursors));
      && r.isDrawing
      && (r.didMouseMove <==> st.didMouseMove || cursors != [])
      && r.stageScale == st.stageScale && r.stageCoordinates == st.stageCoordinates
      && (s.tool == ImageEraser ==>
            r.lines == st.lines && r.eraserLines == ExtendEraserLine(st.eraserLines, Flatten(cursors)))
      && (s.tool != ImageEraser ==>
            r.eraserLines == st.eraserLines && r.lines == ExtendLine(st.lines, Flatten(cursors)))
    decreases |cursors|
  {
    if cursors == [] {
      ExtendByNothing(st.lines, st.eraserLines);
    } else {
      var c := cursors[0];
      var st1 := MouseMove(st, s, surface, Some(c));
      assert Moves(cursors)[0] == PointerMove(Some(c));
      assert Moves(cursors)[1..] == Moves(cursors[1..]);
      assert Run(st, s, surface, scaleBy, l, Moves(cursors)) == Run(st1, s, surface, scaleBy, l, Moves(cursors[1..]));
      assert HasCurrentStroke(st1, s.tool);
      MovesExtendStroke(st1, s, surface, scaleBy, l, cursors[1..]);
      assert Flatten(cursors) == Pair(c) + Flatten(cursors[1..]);
      ExtendLineTwice(st.lines, Pair(c), Flatten(cursors[1..]));
      ExtendEraserLineTwice(st.eraserLines, Pair(c), Flatten(cursors[1..]));
    }
  }

  /**
   * A whole stroke: pointer-down, moves, pointer-up while drawing is allowed.
   * It adds exactly one stroke of half the brush size to the tool's list,
   * holding the down point and then each move point; a click without moves
   * becomes a dot holding the down and up points, but only when no move
   * flag was left set before the stroke began.
   */
  lemma StrokeSession(st: CanvasState, s: Settings, surface: Surface, scaleBy: real -> real,
                      l: ScaleLimits, down: Point, cursors: seq<Point>, up: Point)
    requires ValidState(st, l) && DrawingAllowed(s, surface)
    ensures var r := Run(st, s, surface, scaleBy, l, [PointerDown(Some(down))] + Moves(cursors) + [PointerUp(Some(up))]);
      var pts := Pair(down) + (if cursors != [] then Flatten(cursors) else if st.didMouseMove then [] else Pair(up));
      && !r.isDrawing && !r.didMouseMove
      && r.stageScale == st.stageScale && r.stageCoordinates == st.stageCoordinates
      && (s.tool == ImageEraser ==>
            r.lines == st.lines && r.eraserLines == st.eraserLines + [EraserLine(s.brushSize / 2.0, pts)])
      && (s.tool != ImageEraser ==>
            r.eraserLines == st.eraserLines && r.lines == st.lines + [MaskLine(s.tool, s.brushSize / 2.0, pts)])
  {
    var downs := [PointerDown(Some(down))];
    var ups := [PointerUp(Some(up))];
    RunAppend(st, s, surface, scaleBy, l, downs + Moves(cursors), ups);
    var st2 := Run(st, s, surface, scaleBy, l, downs + Moves(cursors));
    StrokeSessionMoves(st, s, surface, scaleBy, l, down, cursors);
    RunSingle(st2, s, surface, scaleBy, l, PointerUp(Some(up)));
    StrokeSessionUp(st, st2, s, surface, down, cursors, up);
  }

  lemma RunSingle(st: CanvasState, s: Settings, surface: Surface, scaleBy: real -> real,
                  l: ScaleLimits, e: Event)
    requires ValidState(st, l)
    ensures Run(st, s, surface, scaleBy, l, [e]) == Step(st, s, surface, scaleBy, l, e)
  {
    assert [e][1..] == [];
  }

  /** The first part of a stroke session: pointer-down, then the moves. */
  lemma StrokeSessionMoves(st: CanvasState, s: Settings, surface: Surface, scaleBy: real -> real,
                           l: ScaleLimits, down: Point, cursors: seq<Point>)
    requires ValidState(st, l) && DrawingAllowed(s, surface)
    ensures var st2 := Run(st, s, surface, scaleBy, l, [PointerDown(Some(down))] + Moves(cursors));
      && ValidState(st2, l)
      && st2.isDrawing
      && (st2.didMouseMove <==> st.didMouseMove || cursors != [])
      && st2.stageScale == st.stageScale && st2.stageCoordinates == st.stageCoordinates
      && (s.tool == ImageEraser ==>
            st2.lines == st.lines
            && st2.eraserLines == ExtendEraserLine(st.eraserLines + [EraserLine(s.brushSize / 2.0, Pair(down))], Flatten(cursors)))
      && (s.tool != ImageEraser ==>
            st2.eraserLines == st.eraserLines
            && st2.lines == ExtendLine(st.lines + [MaskLine(s.tool, s.brushSize / 2.0, Pair(down))], Flatten(cursors)))
  {
    var downs := [PointerDown(Some(down))];
    RunAppend(st, s, surface, scaleBy, l, downs, Moves(cursors));
    RunSingle(st, s, surface, scaleBy, l, PointerDown(Some(down)));
    var st1 := MouseDown(st, s, surface, Some(down));
    assert CanStartStroke(s, surface, Some(down));
    assert HasCurrentStroke(st1, s.tool);
    MovesExtendStroke(st1, s, surface, scaleBy, l, cursors);
  }

  /** The last step of a stroke session: pointer-up after the moves. */
  lemma StrokeSessionUp(st: CanvasState, st2: CanvasState, s: Settings, surface: Surface,
                        down: Point, cursors: seq<Point>, up: Point)
    requires DrawingAllowed(s, surface) && st2.isDrawing
    requires st2.didMouseMove <==> st.didMouseMove || cursors != []
    requires st2.stageScale == st.stageScale && st2.stageCoordinates == st.stageCoordinates
    requires s.tool == ImageEraser ==>
      st2.lines == st.lines
      && st2.eraserLines == ExtendEraserLine(st.eraserLines + [EraserLine(s.brushSize / 2.0, Pair(down))], Flatten(cursors))
    requires s.tool != ImageEraser ==>
      st2.eraserLines == st.eraserLines
      && st2.lines == ExtendLine(st.lines + [MaskLine(s.tool, s.brushSize / 2.0, Pair(down))], Flatten(cursors))
    ensures var r := MouseUp(st2, s, surface, Some(up));
      var pts := Pair(down) + (if cursors != [] then Flatten(cursors) else if st.didMouseMove then [] else Pair(up));
      && !r.isDrawing && !r.didMouseMove
      && r.stageScale == st.stageScale && r.stageCoordinates == st.stageCoordinates
      && (s.tool == ImageEraser ==>
            r.lines == st.lines && r.eraserLines == st.eraserLines + [EraserLine(s.brushSize / 2.0, pts)])
      && (s.tool != ImageEraser ==>
            r.eraserLines == st.eraserLines && r.lines == st.lines + [MaskLine(s.tool, s.brushSize / 2.0, pts)])
  {
    var w := s.brushSize / 2.0;
    var dot := cursors == [] && !st.didMouseMove;
    var tail := if dot then Pair(up) else Flatten(cursors);
    assert cursors == [] ==> Flatten(cursors) == [];
    assert Pair(down) + [] == Pair(down);
    if s.tool == ImageEraser {
      ExtendAppendedEraserLine(st.eraserLines, EraserLine(w, Pair(down)), Flatten(cursors));
      if dot {
        ExtendAppendedEraserLine(st.eraserLines, EraserLine(w, Pair(down)), Pair(up));
      }
    } else {
      ExtendAppendedLine(st.lines, MaskLine(s.tool, w, Pair(down)), Flatten(cursors));
      if dot {
        ExtendAppendedLine(st.lines, MaskLine(s.tool, w, Pair(down)), Pair(up));
      }
    }
  }

  /** A brush of size 20 pressed at (10, 10), moved to (15, 10) and released there. */
  lemma BrushStrokeExample(st: CanvasState, s: Settings, surface: Surface, scaleBy: real -> real, l: ScaleLimits)
    requires ValidState(st, l) && DrawingAllowed(s, surface) && s.tool == Brush && s.brushSize == 20.0
    ensures Run(st, s, surface, scaleBy, l,
                [PointerDown(Some(Point(10.0, 10.0)))] + Moves([Point(15.0, 10.0)]) + [PointerUp(Some(Point(15.0, 10.0)))]).lines
         == st.lines + [MaskLine(Brush, 10.0, [10.0, 10.0, 15.0, 10.0])]
  {
    StrokeSession(st, s, surface, scaleBy, l, Point(10.0, 10.0), [Point(15.0, 10.0)], Point(15.0, 10.0));
    assert Flatten([Point(15.0, 10.0)]) == [15.0, 10.0];
    assert Pair(Point(10.0, 10.0)) + [15.0, 10.0] == [10.0, 10.0, 15.0, 10.0];
  }

  /** The image eraser clicked at (5, 5) without moving leaves a dot. */
  lemma EraserClickExample(st: CanvasState, s: Settings, surface: Surface, scaleBy: real -> real, l: ScaleLimits)
    requires ValidState(st, l) && DrawingAllowed(s, surface) && s.tool == ImageEraser && !st.didMouseMove
    ensures Run(st, s, surface, scaleBy, l,
                [PointerDown(Some(Point(5.0, 5.0)))] + Moves([]) + [PointerUp(Some(Point(5.0, 5.0)))]).eraserLines
         == st.eraserLines + [EraserLine(s.brushSize / 2.0, [5.0, 5.0, 5.0, 5.0])]
  {
    StrokeSession(st, s, surface, scaleBy, l, Point(5.0, 5.0), [], Point(5.0, 5.0));
    assert Pair(Point(5.0, 5.0)) + Pair(Point(5.0, 5.0)) == [5.0, 5.0, 5.0, 5.0];
  }

  /**
   * Neither pointer-down nor leaving the canvas clears the move flag: after
   * a stroke that moved and was cut off by the pointer leaving, the next
   * click adds a stroke holding one point only, not a dot.
   */
  lemma ClickAfterCutOffStroke(st: CanvasState, s: Settings, surface: Surface, scaleBy: real -> real,
                               l: ScaleLimits, p: Point, q: Point, c: Point)
    requires ValidState(st, l) && DrawingAllowed(s, surface) && s.tool != ImageEraser
    ensures var r := Run(st, s, surface, scaleBy, l,
                         ([PointerDown(Some(p))] + Moves([q])) + [PointerOut]
                         + ([PointerDown(Some(c))] + Moves([]) + [PointerUp(Some(c))]));
      && |r.lines| == |st.lines| + 2
      && r.lines[|r.lines| - 1] == MaskLine(s.tool, s.brushSize / 2.0, [c.x, c.y])
  {
    var first := [PointerDown(Some(p))] + Moves([q]);
    var click := [PointerDown(Some(c))] + Moves([]) + [PointerUp(Some(c))];
    RunAppend(st, s, surface, scaleBy, l, first + [PointerOut], click);
    RunAppend(st, s, surface, scaleBy, l, first, [PointerOut]);
    StrokeSessionMoves(st, s, surface, scaleBy, l, p, [q]);
    var st2 := Run(st, s, surface, scaleBy, l, first);
    RunSingle(st2, s, surface, scaleBy, l, PointerOut);
    var st3 := MouseOut(st2);
    assert st3.didMouseMove;
    StrokeSession(st3, s, surface, scaleBy, l, c, [], c);
  }

  /** While the stage is draggable the move-stage key is held, so the wheel never zooms. */
  lemma DraggableStageIgnoresWheel(st: CanvasState, s: Settings, surface: Surface, pointer: Option<Point>,
                                   deltaY: real, ctrlKey: bool, scaleBy: real -> real, l: ScaleLimits,
                                   position: Point)
    requires st.stageScale > 0.0 && StageDraggable(s)
    ensures Wheel(st, s, surface, pointer, deltaY, ctrlKey, scaleBy, l) == st
    ensures DragStage(st, s, position) == st.(stageCoordinates := position)
  {
  }

  /**
   * While the bounding box is transformed or moved, no handler draws: down
   * and enter start no stroke, move and up leave the strokes alone, and the
   * brush preview is hidden while the cursor is `undefined` or `move`.
   */
  lemma ModifyingBoundingBoxSuppressesDrawing(st: CanvasState, s: Settings, surface: Surface,
                                              cursor: Option<Point>, buttons: int, hasBackgroundImage: bool)
    requires IsModifyingBoundingBox(s)
    ensures MouseDown(st, s, surface, cursor) == st
    ensures MouseEnter(st, s, surface, cursor, buttons) == st
    ensures MouseMove(st, s, surface, cursor).lines == st.lines
    ensures MouseMove(st, s, surface, cursor).eraserLines == st.eraserLines
    ensures MouseUp(st, s, surface, cursor).lines == st.lines
    ensures MouseUp(st, s, surface, cursor).eraserLines == st.eraserLines
    ensures !Visibility(s, hasBackgroundImage).brushPreview
    ensures StageCursorOf(s) == Unset || StageCursorOf(s) == Move
  {
  }
}
