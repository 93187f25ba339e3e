# WSI viewer: pan/zoom viewport and hub indicator

A Dafny model of the viewport engine of the `WsiViewer` component of a blood
smear viewer. The component shows a 1024 x 512 microscopy image in a main
view that the user can drag to pan and zoom with the mouse wheel or two
buttons. A small "hub" view shows a thumbnail of the image, with a rectangle marking the
part the main view shows. The model also covers three small pure helpers from
the same file: the formatting of detection boxes, the image lookup for the
selected cell type, and the style class for that cell type.

Numbers are exact `real`s. The modules are:

- `Viewport`: the transform (`zoomLevel` and `position`), the drag session
  (`isDragging` and `dragStart`) and the selected cell type, as a `ViewState`
  value. Each event handler is a pure transition on it. `Run` applies a
  sequence of events in arrival order.
- `HubView`: the hub indicator rectangle. It is a pure function of the
  position, the zoom and the measured sizes of the main view and the hub
  panel. Its formula treats the 1024 x 512 image as stretched over the whole
  panel, with separate x and y scales; the panel draws the image with
  `backgroundSize: 'cover'` (line 474), which scales uniformly and may crop,
  and that drawing is not modelled.
- `Detections`: the map from `[x1, y1, x2, y2, label]` detections to
  `{x, y, width, height, label}` boxes. The label field is called
  `cellLabel` because `label` is a Dafny keyword.
- `Catalog`: the count tables as lookup data, `getCurrentImage` and
  `getBloodCellClass`.
- `Viewer`: the component's state as the class `WsiViewer`. Its fields are
  updated in place by the handler methods. Each method's contract says the new
  state is the one the matching `Viewport` transition gives. The React effect
  that reruns `updateHubViewPosition` whenever `position` or `zoomLevel`
  changes is modelled as an explicit call at the end of each handler that
  sets them, and at the end of the constructor for the effect's first run
  after mounting, which replaces the placeholder indicator (0, 0, 40, 20). The zoom buttons make that call only when the zoom level really
  changes, because React skips an update to an equal number. The sizes read
  from the DOM are passed in as a `Layout`. The wheel cursor is passed in
  relative to the main view.

Behaviour of the code that a reader might not expect; the model follows the
code:

- A wheel event with `deltaY == 0` zooms out. It is not a no-op.
- Mouse-down while dragging starts the drag again with a new `dragStart`. It
  is not ignored.
- Selecting a cell type resets zoom and position but keeps `isDragging` and
  `dragStart`. It does not abort a drag.
- The hub rectangle's width and height are only clamped from above, by the
  panel size. There is no lower clamp to 0 or to 10. The 10-pixel minimum is
  applied only by CSS (`minWidth`, `minHeight`), which is out of scope.
- The hub rectangle is not kept when a panel size is zero: it is recomputed
  from that size. The code skips recomputation only when a DOM ref is null.
- Non-positive wheel deltas and button presses are not rejected. Every event
  zooms, and the result is clamped.

## Model

| member | source | states |
|---|---|---|
| `Viewport.Min` | src/WsiViewer.jsx:236 | `Math.min`: the result is at most both arguments and is one of them |
| `Viewport.Max` | src/WsiViewer.jsx:237 | `Math.max`: the result is at least both arguments and is one of them |
| `Viewport.WheelZoom` | src/WsiViewer.jsx:235-237 | a negative deltaY gives the smaller of zoom·1.1 and 5; any other deltaY, zero included, gives the larger of zoom/1.1 and 0.5; a non-zero zoom stays non-zero |
| `Viewport.ButtonZoomIn` | src/WsiViewer.jsx:445 | the zoom-in button gives the smaller of zoom·1.2 and 5 |
| `Viewport.ButtonZoomOut` | src/WsiViewer.jsx:438 | the zoom-out button gives the larger of zoom/1.2 and 0.5 |
| `Viewport.WheelZoomBounds` | src/WsiViewer.jsx:235-237 | wheel zoom keeps a zoom in [0.5, 5] in range; a negative delta never lowers it and raises it strictly below 5; any other delta never raises it and lowers it strictly above 0.5 |
| `Viewport.ButtonZoomBounds` | src/WsiViewer.jsx:437-449 | both buttons keep the zoom in [0.5, 5]; zoom-in never lowers it, zoom-out never raises it, each strictly unless at its limit |
| `Viewport.ButtonZoomRoundTrip` | src/WsiViewer.jsx:437-449 | away from the limits, zoom-out undoes zoom-in and zoom-in undoes zoom-out |
| `Viewport.ImagePointUnder` | src/WsiViewer.jsx:230-232 | the image point under screen point c is the one the transform draws at c: c = position + point·zoom |
| `Viewport.AnchoredPosition` | src/WsiViewer.jsx:239-241 | the new position puts the same image point under the cursor at the new zoom |
| `Viewport.AnchoredPositionUnique` | src/WsiViewer.jsx:239-241 | the anchored position is the only position that keeps the image point under the cursor |
| `Viewport.DragAnchor` | src/WsiViewer.jsx:199-202 | dragStart is the pointer's offset from the position: pointer = position + dragStart |
| `Viewport.PanPosition` | src/WsiViewer.jsx:207-208 | the panned position keeps the pointer-to-position offset equal to dragStart |
| `Viewport.SelectCellType` | src/WsiViewer.jsx:187-194 | selecting stores category and cell type, sets zoom to 1 and position to (0,0), and keeps isDragging and dragStart |
| `Viewport.MouseDown` | src/WsiViewer.jsx:197-203 | mouse-down sets isDragging even when already dragging; a move back to the press point would give the current position; zoom and position are unchanged |
| `Viewport.MouseMove` | src/WsiViewer.jsx:205-215 | without a drag nothing changes; during a drag the new position keeps the offset captured at mouse-down; zoom and the drag session are unchanged |
| `Viewport.MouseUp` | src/WsiViewer.jsx:217-219 | mouse-up clears isDragging and keeps position, zoom and dragStart |
| `Viewport.Wheel` | src/WsiViewer.jsx:222-249 | the new zoom is the wheel zoom; the image point under the cursor is the same before and after; the drag session and the selection are unchanged |
| `Viewport.ZoomInButton` | src/WsiViewer.jsx:444-446 | the zoom-in button changes only the zoom, to the clamped zoom·1.2 |
| `Viewport.ZoomOutButton` | src/WsiViewer.jsx:437-439 | the zoom-out button changes only the zoom, to the clamped zoom/1.2 |
| `Viewport.Step` | src/WsiViewer.jsx:187-449 | every handler keeps a zoom in [0.5, 5] in range and a non-zero zoom non-zero |
| `Viewport.Run` | src/WsiViewer.jsx:187-449 | for any sequence of pointer, wheel, button and selection events, the zoom stays in [0.5, 5] |
| `Viewport.SelectCellTypeIdempotent` | src/WsiViewer.jsx:187-194 | selecting twice equals selecting once; apart from the drag session, the result does not depend on the prior state |
| `Viewport.PanFollowsPointer` | src/WsiViewer.jsx:197-215 | after a press at p0, a move to p gives position p − (p0 − old position), and a move back to p0 restores the old position |
| `Viewport.MovesOnlyPan` | src/WsiViewer.jsx:205-215 | any run of moves keeps zoom, drag session and selection; while dragging the position depends only on the last pointer, otherwise it does not change |
| `Viewport.PanRoundTrip` | src/WsiViewer.jsx:197-215 | a press at p0, any moves, then a move back to p0 leave the position as it was before the press |
| `Viewport.WheelKeepsPointUnderCursor` | src/WsiViewer.jsx:230-248 | for a zoom in [0.5, 5], a wheel event keeps the zoom in range and keeps (cursor − position)/zoom on both axes |
| `Viewport.WheelRoundTrip` | src/WsiViewer.jsx:222-249 | away from the upper limit, a zoom-in wheel step and a zoom-out wheel step at the same cursor restore zoom and position exactly |
| `Viewport.ButtonZoomAnchorsImageOrigin` | src/WsiViewer.jsx:445 | the zoom-in button keeps only the image origin in place: after a zoom change, every other screen point shows a different image point |
| `Viewport.WheelExample` | src/WsiViewer.jsx:222-249 | from zoom 1 at (0,0), a wheel-up at (500,300) gives zoom 1.1 and position (−50,−30) |
| `Viewport.ZoomOutExample` | src/WsiViewer.jsx:438 | the zoom-out button from zoom 1 gives 1/1.2 and keeps the position |
| `HubView.ViewportInHub` | src/WsiViewer.jsx:259-263 | before clamping, the rectangle's corners are the image points under the main view's top-left and bottom-right corners, scaled by the hub size over 1024 x 512 |
| `HubView.HubViewRect` | src/WsiViewer.jsx:252-272 | x lies in [0, max(0, hubW−10)] and y in [0, max(0, hubH−10)]; width ≤ hubW and height ≤ hubH |
| `HubView.HubViewRectNonNegative` | src/WsiViewer.jsx:262-269 | with zoom > 0 and non-negative sizes, the indicator's width and height are ≥ 0 |
| `HubView.HubViewRectClamps` | src/WsiViewer.jsx:265-270 | an in-range coordinate is kept, an out-of-range one goes to the nearest end of its range; width and height are clamped only from above |
| `HubView.ViewportInHubIsScaledView` | src/WsiViewer.jsx:259-263 | before clamping, the rectangle spans from the image point under the main view's top-left corner to the one under its bottom-right corner, scaled to hub pixels |
| `HubView.HubViewRectTracksView` | src/WsiViewer.jsx:259-270 | when the visible part of the image starts inside the hub's clamp range and is no larger than the image, no clamping applies: the indicator is the unclamped rectangle |
| `HubView.HubViewExample` | src/WsiViewer.jsx:259-270 | with main view 800x600, hub 200x100, position (−100,−50) and zoom 2, the indicator is (9.765625, 4.8828125, 78.125, 58.59375) |
| `Detections.FormatDetection` | src/WsiViewer.jsx:137-143 | the box keeps the top-left corner and the label, and its bottom-right corner is (x2, y2), so width = x2 − x1 and height = y2 − y1 |
| `Detections.Corners` | src/WsiViewer.jsx:137-143 | the corner form of a box formats back to that box |
| `Detections.FormatDetections` | src/WsiViewer.jsx:137-143 | the formatted list has the input's length, and box i is detection i formatted |
| `Detections.FormatDetectionsRoundTrip` | src/WsiViewer.jsx:137-143 | the corners of each formatted box give back the detection it came from |
| `Detections.FormatDetectionsAppend` | src/WsiViewer.jsx:137-143 | formatting a concatenation equals concatenating the formatted parts |
| `Detections.CornersAll` | src/WsiViewer.jsx:137-143 | the corner forms of a list of boxes format back to exactly that list |
| `Detections.AppendBoxes` | src/WsiViewer.jsx:168 | the formatted detections followed by boxes built directly equal the formatting of the detections followed by those boxes' corner forms |
| `Detections.FormatDetectionExample` | src/WsiViewer.jsx:94 | the first sample detection [121, 4, 163, 45] becomes the box at (121, 4) of size 42 x 41 |
| `Catalog.CurrentImage` | src/WsiViewer.jsx:75-82 | the image of the selected row of the category's table, or the default image when there is no such row |
| `Catalog.CurrentImageIsListed` | src/WsiViewer.jsx:75-82 | the image shown is the default image or one named by a row of one of the tables |
| `Catalog.SampleCountsRows` | src/WsiViewer.jsx:13-28 | the starting red cell table lists exactly seven cell types and the white cell table exactly four |
| `Catalog.SampleImagesDistinct` | src/WsiViewer.jsx:13-28 | within each starting table, two listed cell types that show the same image are the same cell type |
| `Catalog.CurrentImageExamples` | src/WsiViewer.jsx:19 | on the starting tables, rbc 'Ovalocytes' shows malaria.jpg, wbc 'Monocyte' its own image, and wbc 'Ovalocytes' the default image |
| `Catalog.BloodCellClass` | src/WsiViewer.jsx:60-72 | the class is one of normal, sickle-cell, anemia or leukemia; for 'wbc' it is leukemia exactly when the name contains 'leukemia', otherwise normal; any other category gives normal |
| `Catalog.Contains` | src/WsiViewer.jsx:68 | `includes`: the name contains the substring exactly when the substring occurs at some index of it; the empty substring occurs everywhere |
| `Catalog.RbcClassMatchesTable` | src/WsiViewer.jsx:61-66 | a red cell type's class is the one its name is listed with; an unlisted name is normal |
| `Catalog.MalariaUnreachable` | src/WsiViewer.jsx:64-66 | the malaria class is never returned, because 'Ovalocytes' is matched first by the anemia test |
| `Catalog.SampleWbcAreNormal` | src/WsiViewer.jsx:67-69 | no white cell name of the starting table contains 'leukemia', so each of them is shown as normal |
| `Viewer.WsiViewer.constructor` | src/WsiViewer.jsx:35-41 | a new viewer has zoom 1, position (0,0), no drag and the rbc 'Angled Cells' selection; the effect's first run after mounting (lines 182-184) has set the indicator to the hub rectangle of that transform and the measured sizes |
| `Viewer.WsiViewer.UpdateHubViewPosition` | src/WsiViewer.jsx:252-272 | sets the indicator to the hub rectangle of the current transform and sizes, within the hub bounds; changes nothing else |
| `Viewer.WsiViewer.HandleCellTypeSelect` | src/WsiViewer.jsx:187-194 | the new state is the selection transition; the indicator is recomputed |
| `Viewer.WsiViewer.HandleMouseDown` | src/WsiViewer.jsx:197-203 | the new state is the mouse-down transition; the indicator is unchanged |
| `Viewer.WsiViewer.HandleMouseMove` | src/WsiViewer.jsx:205-215 | the new state is the mouse-move transition; the indicator is recomputed only during a drag |
| `Viewer.WsiViewer.HandleMouseUp` | src/WsiViewer.jsx:217-219 | the new state is the mouse-up transition; the indicator is unchanged |
| `Viewer.WsiViewer.HandleMouseLeave` | src/WsiViewer.jsx:376 | mouse-leave has exactly the mouse-up effect |
| `Viewer.WsiViewer.HandleWheel` | src/WsiViewer.jsx:222-249 | the new state is the wheel transition; the zoom stays in range, the point under the cursor stays fixed, and the indicator is recomputed |
| `Viewer.WsiViewer.ZoomOut` | src/WsiViewer.jsx:438 | the new state is the zoom-out transition; the indicator is recomputed when the zoom changed |
| `Viewer.WsiViewer.ZoomIn` | src/WsiViewer.jsx:445 | the new state is the zoom-in transition; the indicator is recomputed when the zoom changed |

## Left out

- Rendering, JSX markup and styling (src/WsiViewer.jsx:274-508): no algorithmic content. This includes the CSS `minWidth`/`minHeight` bounds on the indicator and the percentage label with `Math.round` (line 443).
- DOM measurement (`getBoundingClientRect`, `offsetWidth`/`offsetHeight`) and the null-ref guard in `updateHubViewPosition`: the cursor is passed in relative to the main view, and the sizes are passed in as a `Layout`.
- `e.preventDefault()` in the wheel handler: a browser side effect.
- The date formatting with `toLocaleString` (lines 48-57): a locale library call.
- The detection fetch scaffolding and the 100 `Math.random` boxes appended to the formatted list (lines 85-179): nondeterministic demo plumbing. `AppendBoxes` covers how line 168 combines the formatted list with such boxes, for any boxes.
- The platelet table and the table of 40 sample detections: static data that no modelled operation reads.
- Floating-point rounding: all arithmetic is exact over `real`. For example, the wheel round trip that is exact here can be off by an ulp in the browser.
- `CurrentImage`: JavaScript property lookup also finds inherited object properties such as `constructor`. The model looks up only the table's own rows.
- React's batching and re-rendering: each handler is one atomic update followed by the effect's recomputation, as in arrival order.
