/** Detection boxes: the detector reports each cell as its two corners and a
    label, `[x1, y1, x2, y2, label]`; the viewer draws each as a box given by
    its top-left corner and its size, in image pixels. */
module Detections {

  datatype RawDetection = RawDetection(x1: real, y1: real, x2: real, y2: real, cellLabel: string)

  datatype Detection = Detection(x: real, y: real, width: real, height: real, cellLabel: string)

  /** The bottom-right corner of a box. */
  function Right(d: Detection): real { d.x + d.width }
  function Bottom(d: Detection): real { d.y + d.height }

  /** One detection as a box with the same corners and label. */
  function FormatDetection(item: RawDetection): (d: Detection)
    ensures d.x == item.x1 && d.y == item.y1
    ensures Right(d) == item.x2 && Bottom(d) == item.y2
    ensures d.cellLabel == item.cellLabel
    ensures item.x1 <= item.x2 ==> d.width >= 0.0
    ensures item.y1 <= item.y2 ==> d.height >= 0.0
  {
    Detection(item.x1, item.y1, item.x2 - item.x1, item.y2 - item.y1, item.cellLabel)
  }

  /** The corner form of a box: the inverse of FormatDetection. */
  function Corners(d: Detection): (item: RawDetection)
    ensures FormatDetection(item) == d
  {
    RawDetection(d.x, d.y, Right(d), Bottom(d), d.cellLabel)
  }

  /** The detector's whole list, formatted element by element in order. */
  function FormatDetections(items: seq<RawDetection>): (boxes: seq<Detection>)
    ensures |boxes| == |items|
    ensures forall i :: 0 <= i < |items| ==> boxes[i] == FormatDetection(items[i])
  {
    if items == [] then [] else [FormatDetection(items[0])] + FormatDetections(items[1..])
  }

  /** Nothing is lost in the formatting: the corners of every box are the
      detection it came from. */
  lemma FormatDetectionsRoundTrip(items: seq<RawDetection>)
    ensures forall i :: 0 <= i < |items| ==> Corners(FormatDetections(items)[i]) == items[i]
  {
    forall i | 0 <= i < |items| ensures Corners(FormatDetections(items)[i]) == items[i] {
      var d := FormatDetections(items)[i];
      assert FormatDetection(Corners(d)) == d;
      assert d == FormatDetection(items[i]);
    }
  }

  /** Formatting distributes over concatenation, so the formatted list can
      be extended with further boxes one batch at a time. */
  lemma {:induction false} FormatDetectionsAppend(a: seq<RawDetection>, b: seq<RawDetection>)
    ensures FormatDetections(a + b) == FormatDetections(a) + FormatDetections(b)
    decreases |a|
  {
    if a == [] {
      assert a + b == b;
    } else {
      assert (a + b)[1..] == a[1..] + b;
      FormatDetectionsAppend(a[1..], b);
    }
  }

  /** The corner forms of a list of boxes. */
  function CornersAll(boxes: seq<Detection>): (items: seq<RawDetection>)
    ensures FormatDetections(items) == boxes
  {
    if boxes == [] then [] else [Corners(boxes[0])] + CornersAll(boxes[1..])
  }

  /** Appending boxes that were built directly, not formatted, to the
      formatted list gives the list that formatting their corner forms
      together with the detections would give: the combined list is still
      a list of formatted detections. */
  lemma AppendBoxes(items: seq<RawDetection>, extra: seq<Detection>)
    ensures FormatDetections(items) + extra == FormatDetections(items + CornersAll(extra))
  {
    FormatDetectionsAppend(items, CornersAll(extra));
  }

  /** Worked example: the first detection of the sample list. */
  lemma FormatDetectionExample()
    ensures FormatDetection(RawDetection(121.0, 4.0, 163.0, 45.0, "Circular_RBC"))
         == Detection(121.0, 4.0, 42.0, 41.0, "Circular_RBC")
  {
  }
}
