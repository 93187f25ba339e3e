/** The viewer component's viewport state and its event handlers.

    Each handler updates the fields in place; its contract says that the new
    state is the one the corresponding transition of module Viewport gives.
    The hub rectangle is re-derived, as the component's effect on
    `[position, zoomLevel]` does, by an explicit call at the end of every
    handler that sets the position or changes the zoom level. The DOM sizes
    that the recomputation reads are passed in as a `Layout`. */
module Viewer {
  import opened Viewport
  import opened HubView

  /** The measured sizes of the main view and of the hub panel. */
  datatype Layout = Layout(mainWidth: real, mainHeight: real, hubWidth: real, hubHeight: real)

  predicate NonNegative(layout: Layout) {
    layout.mainWidth >= 0.0 && layout.mainHeight >= 0.0 && layout.hubWidth >= 0.0 && layout.hubHeight >= 0.0
  }

  class WsiViewer {
    var zoomLevel: real
    var position: Point
    var isDragging: bool
    var dragStart: Point
    var hubViewPosition: Rect
    var selectedCellType: string
    var cellCategory: string

    /** The zoom level never leaves [MinZoom, MaxZoom]. */
    ghost predicate Valid()
      reads this
    {
      ZoomInRange(zoomLevel)
    }

    /** The fields the handlers read and write, as one value. */
    function State(): ViewState
      reads this
    {
      ViewState(zoomLevel, position, isDragging, dragStart, cellCategory, selectedCellType)
    }

    /** The indicator the hub would show for the current transform. */
    function HubFor(layout: Layout): Rect
      reads this
      requires Valid()
    {
      HubViewRect(position, zoomLevel, layout.mainWidth, layout.mainHeight, layout.hubWidth, layout.hubHeight)
    }

    /** Mounting the component: the state starts at its initial values, and
        the effect's first run, after the first render, already replaces the
        placeholder indicator by the one measured for `layout`. */
    constructor (layout: Layout)
      ensures Valid()
      ensures State() == Initial
      ensures hubViewPosition == HubFor(layout)
    {
      zoomLevel := 1.0;
      position := Origin;
      isDragging := false;
      dragStart := Origin;
      hubViewPosition := InitialHubRect;
      selectedCellType := "Angled Cells";
      cellCategory := "rbc";
      new;
      UpdateHubViewPosition(layout);
    }

    /** The hub indicator from the current transform and sizes. */
    method UpdateHubViewPosition(layout: Layout)
      requires Valid()
      modifies this`hubViewPosition
      ensures hubViewPosition == HubFor(layout)
      ensures 0.0 <= hubViewPosition.x <= Max(0.0, layout.hubWidth - IndicatorMin)
      ensures 0.0 <= hubViewPosition.y <= Max(0.0, layout.hubHeight - IndicatorMin)
      ensures hubViewPosition.width <= layout.hubWidth && hubViewPosition.height <= layout.hubHeight
      ensures NonNegative(layout) ==> hubViewPosition.width >= 0.0 && hubViewPosition.height >= 0.0
    {
      hubViewPosition := HubViewRect(position, zoomLevel, layout.mainWidth, layout.mainHeight,
                                     layout.hubWidth, layout.hubHeight);
      if NonNegative(layout) {
        HubViewRectNonNegative(position, zoomLevel, layout.mainWidth, layout.mainHeight,
                               layout.hubWidth, layout.hubHeight);
      }
    }

    /** Selecting a row of a count table. */
    method HandleCellTypeSelect(category: string, cellType: string, layout: Layout)
      requires Valid()
      modifies this
      ensures Valid()
      ensures State() == SelectCellType(old(State()), category, cellType)
      ensures hubViewPosition == HubFor(layout)
    {
      selectedCellType := cellType;
      cellCategory := category;
      zoomLevel := 1.0;
      position := Origin;
      UpdateHubViewPosition(layout);
    }

    method HandleMouseDown(pointer: Point)
      requires Valid()
      modifies this
      ensures Valid()
      ensures State() == MouseDown(old(State()), pointer)
      ensures hubViewPosition == old(hubViewPosition)
    {
      isDragging := true;
      dragStart := DragAnchor(pointer, position);
    }

    method HandleMouseMove(pointer: Point, layout: Layout)
      requires Valid()
      modifies this
      ensures Valid()
      ensures State() == MouseMove(old(State()), pointer)
      ensures hubViewPosition == if old(isDragging) then HubFor(layout) else old(hubViewPosition)
    {
      if isDragging {
        position := PanPosition(pointer, dragStart);
        UpdateHubViewPosition(layout);
      }
    }

    /** Mouse-up ends the drag session. */
    method HandleMouseUp()
      requires Valid()
      modifies this
      ensures Valid()
      ensures State() == MouseUp(old(State()))
      ensures hubViewPosition == old(hubViewPosition)
    {
      isDragging := false;
    }

    /** Leaving the main view runs the mouse-up handler. */
    method HandleMouseLeave()
      requires Valid()
      modifies this
      ensures Valid()
      ensures State() == MouseUp(old(State()))
      ensures hubViewPosition == old(hubViewPosition)
    {
      HandleMouseUp();
    }

    /** `cursor` is the pointer relative to the main view's top-left corner. */
    method HandleWheel(deltaY: real, cursor: Point, layout: Layout)
      requires Valid()
      modifies this
      ensures Valid()
      ensures State() == Wheel(old(State()), deltaY, cursor)
      ensures ImagePointUnder(cursor, position, zoomLevel)
           == ImagePointUnder(cursor, old(position), old(zoomLevel))
      ensures hubViewPosition == HubFor(layout)
    {
      var newZoomLevel := WheelZoom(zoomLevel, deltaY);
      var newPosition := AnchoredPosition(cursor, position, zoomLevel, newZoomLevel);
      WheelZoomBounds(zoomLevel, deltaY);
      zoomLevel := newZoomLevel;
      position := newPosition;
      UpdateHubViewPosition(layout);
    }

    /** The zoom-out button. The hub is re-derived only when the zoom level
        actually changes, since setting an equal number does not re-run the
        component's effect. */
    method ZoomOut(layout: Layout)
      requires Valid()
      modifies this
      ensures Valid()
      ensures State() == ZoomOutButton(old(State()))
      ensures hubViewPosition == if zoomLevel != old(zoomLevel) then HubFor(layout) else old(hubViewPosition)
    {
      ButtonZoomBounds(zoomLevel);
      var newZoomLevel := ButtonZoomOut(zoomLevel);
      if newZoomLevel != zoomLevel {
        zoomLevel := newZoomLevel;
        UpdateHubViewPosition(layout);
      }
    }

    /** The zoom-in button, with the same rule for the hub. */
    method ZoomIn(layout: Layout)
      requires Valid()
      modifies this
      ensures Valid()
      ensures State() == ZoomInButton(old(State()))
      ensures hubViewPosition == if zoomLevel != old(zoomLevel) then HubFor(layout) else old(hubViewPosition)
    {
      ButtonZoomBounds(zoomLevel);
      var newZoomLevel := ButtonZoomIn(zoomLevel);
      if newZoomLevel != zoomLevel {
        zoomLevel := newZoomLevel;
        UpdateHubViewPosition(layout);
      }
    }
  }

  /** A session in which every handler keeps its promise: a drag that ends
      where it began leaves the image where it was, and zooming keeps the
      point under the cursor fixed. */
  method DragAndZoomSession(p0: Point, p1: Point, cursor: Point, layout: Layout)
  {
    var v := new WsiViewer(layout);
    v.HandleMouseDown(p0);
    v.HandleMouseMove(p1, layout);
    v.HandleMouseMove(p0, layout);
    v.HandleMouseLeave();
    assert v.position == Origin && !v.isDragging;
    v.HandleWheel(-1.0, cursor, layout);
    assert v.zoomLevel == 1.1;
    v.HandleWheel(0.0, cursor, layout);
    assert v.zoomLevel == 1.0;
    assert v.position == Origin by {
      AnchoredPositionUnique(cursor, Origin, 1.0, 1.0, v.position);
    }
    v.HandleCellTypeSelect("wbc", "Monocyte", layout);
    assert v.zoomLevel == 1.0 && v.position == Origin && !v.isDragging;
    assert v.cellCategory == "wbc" && v.selectedCellType == "Monocyte";
  }
}
