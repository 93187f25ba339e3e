/** The pan/zoom transform of the WSI viewer's main view.

    The image is drawn translated by `position` and then scaled by
    `zoomLevel`, with the transform origin at the top-left corner, so the
    image point `q` appears on screen at `position + q * zoomLevel`.
    Every input handler of the viewer is modelled here as a pure transition
    on a `ViewState` snapshot; the class in module Viewer applies them to its
    fields. */
module Viewport {

  datatype Point = Point(x: real, y: real)

  const Origin := Point(0.0, 0.0)

  /** Zoom limits and the two zoom steps used by the viewer. */
  const MinZoom: real := 0.5
  const MaxZoom: real := 5.0
  const WheelFactor: real := 1.1
  const ButtonFactor: real := 1.2

  predicate ZoomInRange(z: real) {
    MinZoom <= z <= MaxZoom
  }

  /** `Math.min` and `Math.max` on two numbers. */
  function Min(a: real, b: real): (m: real)
    ensures m <= a && m <= b && (m == a || m == b)
  {
    if a < b then a else b
  }

  function Max(a: real, b: real): (m: real)
    ensures a <= m && b <= m && (m == a || m == b)
  {
    if a > b then a else b
  }

  // ---------------------------------------------------------------------
  // Zoom levels
  // ---------------------------------------------------------------------

  /** Zoom level after one wheel event: a negative `deltaY` zooms in by
      `WheelFactor` up to `MaxZoom`; every other `deltaY`, zero included,
      zooms out by `WheelFactor` down to `MinZoom`. */
  function WheelZoom(zoom: real, deltaY: real): (z: real)
    ensures deltaY < 0.0 ==> z <= MaxZoom && z <= zoom * WheelFactor
    ensures deltaY < 0.0 ==> z == MaxZoom || z == zoom * WheelFactor
    ensures deltaY >= 0.0 ==> MinZoom <= z && zoom / WheelFactor <= z
    ensures deltaY >= 0.0 ==> z == MinZoom || z == zoom / WheelFactor
    ensures zoom != 0.0 ==> z != 0.0
  {
    if deltaY < 0.0 then Min(zoom * WheelFactor, MaxZoom)
    else Max(zoom / WheelFactor, MinZoom)
  }

  /** The zoom-in button: multiply by `ButtonFactor`, at most `MaxZoom`. */
  function ButtonZoomIn(zoom: real): (z: real)
    ensures z <= MaxZoom && z <= zoom * ButtonFactor
    ensures z == MaxZoom || z == zoom * ButtonFactor
    ensures zoom != 0.0 ==> z != 0.0
  {
    Min(zoom * ButtonFactor, MaxZoom)
  }

  /** The zoom-out button: divide by `ButtonFactor`, at least `MinZoom`. */
  function ButtonZoomOut(zoom: real): (z: real)
    ensures MinZoom <= z && zoom / ButtonFactor <= z
    ensures z == MinZoom || z == zoom / ButtonFactor
  {
    Max(zoom / ButtonFactor, MinZoom)
  }

  /** Wheel zoom keeps the zoom level in range and moves it in the direction
      of the wheel: never down for a negative delta, never up otherwise, and
      strictly unless the limit is already reached. */
  lemma WheelZoomBounds(zoom: real, deltaY: real)
    requires ZoomInRange(zoom)
    ensures ZoomInRange(WheelZoom(zoom, deltaY))
    ensures deltaY < 0.0 ==> zoom <= WheelZoom(zoom, deltaY)
    ensures deltaY < 0.0 && zoom < MaxZoom ==> zoom < WheelZoom(zoom, deltaY)
    ensures deltaY >= 0.0 ==> WheelZoom(zoom, deltaY) <= zoom
    ensures deltaY >= 0.0 && MinZoom < zoom ==> WheelZoom(zoom, deltaY) < zoom
  {
  }

  /** The buttons keep the zoom level in range, the zoom-in button never
      lowers it and the zoom-out button never raises it. */
  lemma ButtonZoomBounds(zoom: real)
    requires ZoomInRange(zoom)
    ensures ZoomInRange(ButtonZoomIn(zoom)) && ZoomInRange(ButtonZoomOut(zoom))
    ensures zoom <= ButtonZoomIn(zoom) && (zoom < MaxZoom ==> zoom < ButtonZoomIn(zoom))
    ensures ButtonZoomOut(zoom) <= zoom && (MinZoom < zoom ==> ButtonZoomOut(zoom) < zoom)
  {
  }

  /** Away from the limits, the two buttons undo each other. */
  lemma ButtonZoomRoundTrip(zoom: real)
    requires ZoomInRange(zoom)
    ensures zoom * ButtonFactor <= MaxZoom ==> ButtonZoomOut(ButtonZoomIn(zoom)) == zoom
    ensures MinZoom <= zoom / ButtonFactor ==> ButtonZoomIn(ButtonZoomOut(zoom)) == zoom
  {
  }

  // ---------------------------------------------------------------------
  // Screen and image coordinates
  // ---------------------------------------------------------------------

  /** The image point shown at screen point `c` (the source's zoomedX and
      zoomedY). */
  function ImagePointUnder(c: Point, position: Point, zoom: real): (q: Point)
    requires zoom != 0.0
    ensures c.x == position.x + q.x * zoom && c.y == position.y + q.y * zoom
  {
    Point((c.x - position.x) / zoom, (c.y - position.y) / zoom)
  }

  /** The position that keeps the image point under `c` in place when the
      zoom level changes from `zoom` to `newZoom`. */
  function AnchoredPosition(c: Point, position: Point, zoom: real, newZoom: real): (p: Point)
    requires zoom != 0.0
    ensures newZoom != 0.0 ==> ImagePointUnder(c, p, newZoom) == ImagePointUnder(c, position, zoom)
  {
    var anchor := ImagePointUnder(c, position, zoom);
    Point(c.x - anchor.x * newZoom, c.y - anchor.y * newZoom)
  }

  /** The anchored position is the only one that keeps the point under the
      cursor fixed. */
  lemma AnchoredPositionUnique(c: Point, position: Point, zoom: real, newZoom: real, p: Point)
    requires zoom != 0.0 && newZoom != 0.0
    requires ImagePointUnder(c, p, newZoom) == ImagePointUnder(c, position, zoom)
    ensures p == AnchoredPosition(c, position, zoom, newZoom)
  {
    var q := ImagePointUnder(c, position, zoom);
    assert c.x == p.x + q.x * newZoom && c.y == p.y + q.y * newZoom;
  }

  /** The pointer-to-position delta captured when a drag starts. */
  function DragAnchor(pointer: Point, position: Point): (d: Point)
    ensures pointer.x == position.x + d.x && pointer.y == position.y + d.y
  {
    Point(pointer.x - position.x, pointer.y - position.y)
  }

  /** The position while dragging: the pointer minus the captured delta. */
  function PanPosition(pointer: Point, dragStart: Point): (p: Point)
    ensures DragAnchor(pointer, p) == dragStart
  {
    Point(pointer.x - dragStart.x, pointer.y - dragStart.y)
  }

  // ---------------------------------------------------------------------
  // The viewer's state and its handlers
  // ---------------------------------------------------------------------

  /** Everything the handlers read or write, except the hub rectangle. */
  datatype ViewState = ViewState(
    zoomLevel: real,
    position: Point,
    isDragging: bool,
    dragStart: Point,
    cellCategory: string,
    selectedCellType: string)

  /** The state of a fresh viewer (the rbc table's "Angled Cells" row). */
  const Initial := ViewState(1.0, Origin, false, Origin, "rbc", "Angled Cells")

  /** Selecting a cell type stores it and resets zoom and position; it
      leaves the drag session as it was. */
  function SelectCellType(s: ViewState, category: string, cellType: string): (r: ViewState)
    ensures r.cellCategory == category && r.selectedCellType == cellType
    ensures r.zoomLevel == 1.0 && r.position == Origin
    ensures r.isDragging == s.isDragging && r.dragStart == s.dragStart
  {
    s.(selectedCellType := cellType, cellCategory := category,
       zoomLevel := 1.0, position := Origin)
  }

  /** Mouse-down starts (or, while dragging, restarts) a drag session. */
  function MouseDown(s: ViewState, pointer: Point): (r: ViewState)
    ensures r.isDragging
    ensures PanPosition(pointer, r.dragStart) == s.position
    ensures r.zoomLevel == s.zoomLevel && r.position == s.position
    ensures r.cellCategory == s.cellCategory && r.selectedCellType == s.selectedCellType
  {
    s.(isDragging := true, dragStart := DragAnchor(pointer, s.position))
  }

  /** Mouse-move pans while dragging, keeping the pointer-to-position delta
      captured at mouse-down; otherwise it does nothing. */
  function MouseMove(s: ViewState, pointer: Point): (r: ViewState)
    ensures !s.isDragging ==> r == s
    ensures s.isDragging ==> DragAnchor(pointer, r.position) == s.dragStart
    ensures r.zoomLevel == s.zoomLevel && r.isDragging == s.isDragging && r.dragStart == s.dragStart
    ensures r.cellCategory == s.cellCategory && r.selectedCellType == s.selectedCellType
  {
    if s.isDragging then s.(position := PanPosition(pointer, s.dragStart)) else s
  }

  /** Mouse-up, and mouse-leave which runs the same handler, end the drag. */
  function MouseUp(s: ViewState): (r: ViewState)
    ensures !r.isDragging
    ensures r.zoomLevel == s.zoomLevel && r.position == s.position && r.dragStart == s.dragStart
    ensures r.cellCategory == s.cellCategory && r.selectedCellType == s.selectedCellType
  {
    s.(isDragging := false)
  }

  /** Cursor-anchored wheel zoom at viewport-local cursor `cursor`. */
  function Wheel(s: ViewState, deltaY: real, cursor: Point): (r: ViewState)
    requires s.zoomLevel != 0.0
    ensures r.zoomLevel == WheelZoom(s.zoomLevel, deltaY)
    ensures r.zoomLevel != 0.0
    ensures ImagePointUnder(cursor, r.position, r.zoomLevel) == ImagePointUnder(cursor, s.position, s.zoomLevel)
    ensures r.isDragging == s.isDragging && r.dragStart == s.dragStart
    ensures r.cellCategory == s.cellCategory && r.selectedCellType == s.selectedCellType
  {
    var newZoomLevel := WheelZoom(s.zoomLevel, deltaY);
    s.(zoomLevel := newZoomLevel,
       position := AnchoredPosition(cursor, s.position, s.zoomLevel, newZoomLevel))
  }

  /** The zoom buttons change only the zoom level. */
  function ZoomInButton(s: ViewState): (r: ViewState)
    ensures r.zoomLevel == ButtonZoomIn(s.zoomLevel)
    ensures r.position == s.position && r.isDragging == s.isDragging && r.dragStart == s.dragStart
    ensures r.cellCategory == s.cellCategory && r.selectedCellType == s.selectedCellType
  {
    s.(zoomLevel := ButtonZoomIn(s.zoomLevel))
  }

  function ZoomOutButton(s: ViewState): (r: ViewState)
    ensures r.zoomLevel == ButtonZoomOut(s.zoomLevel)
    ensures r.position == s.position && r.isDragging == s.isDragging && r.dragStart == s.dragStart
    ensures r.cellCategory == s.cellCategory && r.selectedCellType == s.selectedCellType
  {
    s.(zoomLevel := ButtonZoomOut(s.zoomLevel))
  }

  /** The input events the viewer handles, in arrival order. */
  datatype Event =
    | PressAt(pointer: Point)
    | MoveTo(pointer: Point)
    | Release
    | LeaveView
    | WheelAt(deltaY: real, cursor: Point)
    | ZoomInClicked
    | ZoomOutClicked
    | CellTypeSelected(category: string, cellType: string)

  /** One event through its handler. */
  function Step(s: ViewState, e: Event): (r: ViewState)
    requires s.zoomLevel != 0.0
    ensures r.zoomLevel != 0.0
    ensures ZoomInRange(s.zoomLevel) ==> ZoomInRange(r.zoomLevel)
  {
    match e
    case PressAt(p) => MouseDown(s, p)
    case MoveTo(p) => MouseMove(s, p)
    case Release => MouseUp(s)
    case LeaveView => MouseUp(s)
    case WheelAt(d, c) => Wheel(s, d, c)
    case ZoomInClicked => ZoomInButton(s)
    case ZoomOutClicked => ZoomOutButton(s)
    case CellTypeSelected(category, cellType) => SelectCellType(s, category, cellType)
  }

  /** A whole sequence of events; the zoom level stays in range after every
      prefix of it. */
  function Run(s: ViewState, events: seq<Event>): (r: ViewState)
    requires ZoomInRange(s.zoomLevel)
    ensures ZoomInRange(r.zoomLevel)
    decreases |events|
  {
    if events == [] then s else Run(Step(s, events[0]), events[1..])
  }

  // ---------------------------------------------------------------------
  // Properties of the handlers
  // ---------------------------------------------------------------------

  /** Selecting a cell type is idempotent, and what it yields for zoom and
      position does not depend on the state it started from. */
  lemma SelectCellTypeIdempotent(s: ViewState, t: ViewState, category: string, cellType: string)
    ensures SelectCellType(SelectCellType(s, category, cellType), category, cellType)
         == SelectCellType(s, category, cellType)
    ensures SelectCellType(s, category, cellType).(isDragging := t.isDragging, dragStart := t.dragStart)
         == SelectCellType(t, category, cellType)
  {
  }

  /** After a press at `p0`, a move to `p` puts the image at
      `p - (p0 - position)`; a move back to `p0` restores the position. */
  lemma PanFollowsPointer(s: ViewState, p0: Point, p: Point)
    ensures MouseMove(MouseDown(s, p0), p).position
         == Point(p.x - (p0.x - s.position.x), p.y - (p0.y - s.position.y))
    ensures MouseMove(MouseDown(s, p0), p0).position == s.position
  {
  }

  predicate AllMoves(events: seq<Event>) {
    forall i :: 0 <= i < |events| ==> events[i].MoveTo?
  }

  /** Moves alone never change the zoom level or the drag session, and while
      dragging the position is determined by the last pointer alone. */
  lemma {:induction false} MovesOnlyPan(s: ViewState, events: seq<Event>)
    requires ZoomInRange(s.zoomLevel) && AllMoves(events)
    ensures Run(s, events).zoomLevel == s.zoomLevel
    ensures Run(s, events).isDragging == s.isDragging
    ensures Run(s, events).dragStart == s.dragStart
    ensures Run(s, events).cellCategory == s.cellCategory
    ensures Run(s, events).selectedCellType == s.selectedCellType
    ensures Run(s, events).position ==
      if events == [] || !s.isDragging then s.position
      else PanPosition(events[|events| - 1].pointer, s.dragStart)
    decreases |events|
  {
    if events != [] {
      var s1 := Step(s, events[0]);
      assert AllMoves(events[1..]) by {
        forall i | 0 <= i < |events[1..]| ensures events[1..][i].MoveTo? {
          assert events[1..][i] == events[i + 1];
        }
      }
      MovesOnlyPan(s1, events[1..]);
      if |events| > 1 {
        assert events[1..][|events[1..]| - 1] == events[|events| - 1];
      }
    }
  }

  /** Pan reversibility: press at `p0`, move anywhere any number of times,
      move back to `p0`, and the position is what it was before the press. */
  lemma {:induction false} PanRoundTrip(s: ViewState, p0: Point, moves: seq<Event>)
    requires ZoomInRange(s.zoomLevel) && AllMoves(moves)
    ensures Run(s, [PressAt(p0)] + moves + [MoveTo(p0)]).position == s.position
  {
    var events := [PressAt(p0)] + moves + [MoveTo(p0)];
    var rest := moves + [MoveTo(p0)];
    assert events[0] == PressAt(p0);
    assert events[1..] == rest;
    assert AllMoves(rest) by {
      forall i | 0 <= i < |rest| ensures rest[i].MoveTo? {
        if i < |moves| { assert rest[i] == moves[i]; }
      }
    }
    var s1 := MouseDown(s, p0);
    MovesOnlyPan(s1, rest);
    assert rest[|rest| - 1] == MoveTo(p0);
  }

  /** Cursor anchoring: the image point under the cursor is the same before
      and after a wheel event, on both axes. */
  lemma WheelKeepsPointUnderCursor(s: ViewState, deltaY: real, cursor: Point)
    requires ZoomInRange(s.zoomLevel)
    ensures ZoomInRange(Wheel(s, deltaY, cursor).zoomLevel)
    ensures ImagePointUnder(cursor, Wheel(s, deltaY, cursor).position, Wheel(s, deltaY, cursor).zoomLevel)
         == ImagePointUnder(cursor, s.position, s.zoomLevel)
  {
    WheelZoomBounds(s.zoomLevel, deltaY);
  }

  /** Away from the upper limit, one wheel step in and one out at the same
      cursor give back the original zoom and position. */
  lemma {:induction false} WheelRoundTrip(s: ViewState, cursor: Point, dIn: real, dOut: real)
    requires ZoomInRange(s.zoomLevel) && s.zoomLevel * WheelFactor <= MaxZoom
    requires dIn < 0.0 && dOut >= 0.0
    ensures Wheel(Wheel(s, dIn, cursor), dOut, cursor) == s
  {
    var s1 := Wheel(s, dIn, cursor);
    var s2 := Wheel(s1, dOut, cursor);
    assert s1.zoomLevel == s.zoomLevel * WheelFactor;
    assert s2.zoomLevel == s.zoomLevel;
    AnchoredPositionUnique(cursor, s.position, s.zoomLevel, s.zoomLevel, s2.position);
  }

  /** If a screen offset maps to the same image offset at two different
      zoom levels, that offset is zero. */
  lemma SameOffsetAtTwoZooms(a: real, z1: real, z2: real)
    requires z1 != 0.0 && z2 != 0.0 && z1 != z2
    requires a / z1 == a / z2
    ensures a == 0.0
  {
    var q := a / z1;
    assert a == q * z1 && a == q * z2;
    assert q * (z1 - z2) == 0.0;
    assert q == 0.0;
  }

  /** The buttons are not anchored: the only screen point whose image point
      survives a change of zoom is the image origin, drawn at `position`. */
  lemma ButtonZoomAnchorsImageOrigin(s: ViewState, c: Point)
    requires ZoomInRange(s.zoomLevel)
    ensures var r := ZoomInButton(s);
      ImagePointUnder(s.position, r.position, r.zoomLevel) == Origin &&
      (r.zoomLevel != s.zoomLevel && c != s.position ==>
        ImagePointUnder(c, r.position, r.zoomLevel) != ImagePointUnder(c, s.position, s.zoomLevel))
  {
    var r := ZoomInButton(s);
    ButtonZoomBounds(s.zoomLevel);
    if r.zoomLevel != s.zoomLevel
       && ImagePointUnder(c, r.position, r.zoomLevel) == ImagePointUnder(c, s.position, s.zoomLevel) {
      SameOffsetAtTwoZooms(c.x - s.position.x, r.zoomLevel, s.zoomLevel);
      SameOffsetAtTwoZooms(c.y - s.position.y, r.zoomLevel, s.zoomLevel);
    }
  }

  /** The anchored position for a cursor at (500, 300) when the zoom goes
      from 1 to 1.1 with the image at the origin. */
  lemma AnchoredPositionExample()
    ensures AnchoredPosition(Point(500.0, 300.0), Origin, 1.0, 1.1) == Point(-50.0, -30.0)
  {
  }

  /** Worked example: a wheel-up at (500, 300) from the initial transform
      zooms to 1.1 and moves the image to (-50, -30). */
  lemma WheelExample()
    ensures Wheel(Initial, -100.0, Point(500.0, 300.0)).zoomLevel == 1.1
    ensures Wheel(Initial, -100.0, Point(500.0, 300.0)).position == Point(-50.0, -30.0)
  {
    AnchoredPositionExample();
  }

  /** Worked example: the zoom-out button from the initial transform gives
      1/1.2 and keeps the position. */
  lemma ZoomOutExample()
    ensures ZoomOutButton(Initial).zoomLevel == 1.0 / 1.2
    ensures ZoomOutButton(Initial).position == Origin
  {
  }
}
