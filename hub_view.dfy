/** The hub view: a minimap of the whole image with a rectangle marking
    the part of the image the main view currently shows.

    The image has a fixed logical size of 1024 x 512 pixels. The indicator
    is computed as if the image were stretched over the whole panel, with
    separate horizontal and vertical scales; how the panel actually draws
    the image is not part of this model. */
module HubView {
  import opened Viewport

  const ImageWidth: real := 1024.0
  const ImageHeight: real := 512.0

  /** The indicator is drawn at least this many pixels wide and high, so its
      corner is kept this far from the panel's right and bottom edges. */
  const IndicatorMin: real := 10.0

  datatype Rect = Rect(x: real, y: real, width: real, height: real)

  /** The indicator's value before the component first measures itself. */
  const InitialHubRect := Rect(0.0, 0.0, 40.0, 20.0)

  /** The visible part of the main view mapped into hub pixels, before any
      clamping: its top-left corner is the image point under the main
      view's top-left corner, its bottom-right corner the image point under
      the main view's bottom-right corner, both scaled from image to hub
      pixels. */
  function ViewportInHub(position: Point, zoom: real, mainW: real, mainH: real, hubW: real, hubH: real): (u: Rect)
    requires zoom != 0.0
    ensures u.x == ImagePointUnder(Origin, position, zoom).x * (hubW / ImageWidth)
    ensures u.y == ImagePointUnder(Origin, position, zoom).y * (hubH / ImageHeight)
    ensures u.x + u.width == ImagePointUnder(Point(mainW, mainH), position, zoom).x * (hubW / ImageWidth)
    ensures u.y + u.height == ImagePointUnder(Point(mainW, mainH), position, zoom).y * (hubH / ImageHeight)
  {
    var viewportX := (-position.x / zoom) * (hubW / ImageWidth);
    var viewportY := (-position.y / zoom) * (hubH / ImageHeight);
    var viewportWidth := (mainW / zoom) * (hubW / ImageWidth);
    var viewportHeight := (mainH / zoom) * (hubH / ImageHeight);
    assert (mainW - position.x) / zoom == -position.x / zoom + mainW / zoom;
    assert (mainH - position.y) / zoom == -position.y / zoom + mainH / zoom;
    Rect(viewportX, viewportY, viewportWidth, viewportHeight)
  }

  /** The indicator rectangle: the rectangle of ViewportInHub with its
      corner clamped into [0, max(0, hub size - 10)] and its size clamped
      only from above, by the hub size. */
  function HubViewRect(position: Point, zoom: real, mainW: real, mainH: real, hubW: real, hubH: real): (r: Rect)
    requires zoom != 0.0
    ensures 0.0 <= r.x <= Max(0.0, hubW - IndicatorMin)
    ensures 0.0 <= r.y <= Max(0.0, hubH - IndicatorMin)
    ensures r.width <= hubW && r.height <= hubH
  {
    var u := ViewportInHub(position, zoom, mainW, mainH, hubW, hubH);
    Rect(Max(0.0, Min(u.x, hubW - IndicatorMin)),
         Max(0.0, Min(u.y, hubH - IndicatorMin)),
         Min(u.width, hubW),
         Min(u.height, hubH))
  }

  /** With a positive zoom and non-negative sizes the indicator has a
      non-negative size. */
  lemma HubViewRectNonNegative(position: Point, zoom: real, mainW: real, mainH: real, hubW: real, hubH: real)
    requires zoom > 0.0 && mainW >= 0.0 && mainH >= 0.0 && hubW >= 0.0 && hubH >= 0.0
    ensures HubViewRect(position, zoom, mainW, mainH, hubW, hubH).width >= 0.0
    ensures HubViewRect(position, zoom, mainW, mainH, hubW, hubH).height >= 0.0
  {
    NonNegativeScaled(mainW, zoom, hubW / ImageWidth);
    NonNegativeScaled(mainH, zoom, hubH / ImageHeight);
  }

  lemma NonNegativeScaled(a: real, z: real, k: real)
    requires a >= 0.0 && z > 0.0 && k >= 0.0
    ensures (a / z) * k >= 0.0
  {
  }

  /** Clamping leaves every coordinate that is already inside its range as
      it is, and sends one outside to the nearest end of its range. */
  lemma HubViewRectClamps(position: Point, zoom: real, mainW: real, mainH: real, hubW: real, hubH: real)
    requires zoom != 0.0
    ensures var u := ViewportInHub(position, zoom, mainW, mainH, hubW, hubH);
      var r := HubViewRect(position, zoom, mainW, mainH, hubW, hubH);
      (0.0 <= u.x <= hubW - IndicatorMin ==> r.x == u.x) &&
      (u.x < 0.0 ==> r.x == 0.0) &&
      (u.x > hubW - IndicatorMin ==> r.x == Max(0.0, hubW - IndicatorMin)) &&
      (0.0 <= u.y <= hubH - IndicatorMin ==> r.y == u.y) &&
      (u.y < 0.0 ==> r.y == 0.0) &&
      (u.y > hubH - IndicatorMin ==> r.y == Max(0.0, hubH - IndicatorMin)) &&
      r.width == (if u.width <= hubW then u.width else hubW) &&
      r.height == (if u.height <= hubH then u.height else hubH)
  {
  }

  /** Before clamping, the indicator is the visible part of the image,
      from the image point under the main view's top-left corner to the one
      under its bottom-right corner, scaled to hub pixels. */
  lemma ViewportInHubIsScaledView(position: Point, zoom: real, mainW: real, mainH: real, hubW: real, hubH: real)
    requires zoom != 0.0
    ensures var tl := ImagePointUnder(Origin, position, zoom);
      var br := ImagePointUnder(Point(mainW, mainH), position, zoom);
      ViewportInHub(position, zoom, mainW, mainH, hubW, hubH)
        == Rect(tl.x * (hubW / ImageWidth), tl.y * (hubH / ImageHeight),
                (br.x - tl.x) * (hubW / ImageWidth), (br.y - tl.y) * (hubH / ImageHeight))
  {
    var tl := ImagePointUnder(Origin, position, zoom);
    var br := ImagePointUnder(Point(mainW, mainH), position, zoom);
    var u := ViewportInHub(position, zoom, mainW, mainH, hubW, hubH);
    DifferenceScaled(u.x, u.width, tl.x, br.x, hubW / ImageWidth);
    DifferenceScaled(u.y, u.height, tl.y, br.y, hubH / ImageHeight);
  }

  /** When the main view shows a part of the image well inside it, the
      indicator is exactly that part, scaled to hub pixels. */
  lemma HubViewRectTracksView(position: Point, zoom: real, mainW: real, mainH: real, hubW: real, hubH: real)
    requires zoom != 0.0 && hubW > 0.0 && hubH > 0.0
    requires var tl := ImagePointUnder(Origin, position, zoom);
      var br := ImagePointUnder(Point(mainW, mainH), position, zoom);
      0.0 <= tl.x && tl.x * (hubW / ImageWidth) <= hubW - IndicatorMin &&
      0.0 <= tl.y && tl.y * (hubH / ImageHeight) <= hubH - IndicatorMin &&
      br.x - tl.x <= ImageWidth && br.y - tl.y <= ImageHeight
    ensures HubViewRect(position, zoom, mainW, mainH, hubW, hubH)
         == ViewportInHub(position, zoom, mainW, mainH, hubW, hubH)
  {
    var tl := ImagePointUnder(Origin, position, zoom);
    var br := ImagePointUnder(Point(mainW, mainH), position, zoom);
    var u := ViewportInHub(position, zoom, mainW, mainH, hubW, hubH);
    ViewportInHubIsScaledView(position, zoom, mainW, mainH, hubW, hubH);
    ScaledAtMost(br.x - tl.x, ImageWidth, hubW);
    ScaledAtMost(br.y - tl.y, ImageHeight, hubH);
    ClampKeeps(u, hubW, hubH);
  }

  lemma ClampKeeps(u: Rect, hubW: real, hubH: real)
    requires 0.0 <= u.x <= hubW - IndicatorMin && 0.0 <= u.y <= hubH - IndicatorMin
    requires u.width <= hubW && u.height <= hubH
    ensures Rect(Max(0.0, Min(u.x, hubW - IndicatorMin)), Max(0.0, Min(u.y, hubH - IndicatorMin)),
                 Min(u.width, hubW), Min(u.height, hubH)) == u
  {
  }

  lemma DifferenceScaled(x: real, w: real, a: real, b: real, k: real)
    requires x == a * k && x + w == b * k
    ensures w == (b - a) * k
  {
  }

  lemma ScaledAtMost(a: real, size: real, panel: real)
    requires size > 0.0 && panel > 0.0 && a <= size
    ensures a * (panel / size) <= panel
  {
    assert a * (panel / size) <= size * (panel / size);
  }

  /** Worked example: main view 800 x 600, hub 200 x 100, image moved to
      (-100, -50) at zoom 2. */
  lemma HubViewExample()
    ensures HubViewRect(Point(-100.0, -50.0), 2.0, 800.0, 600.0, 200.0, 100.0)
         == Rect(9.765625, 4.8828125, 78.125, 58.59375)
  {
  }
}
