/**
 * Coordinates of the form builder. A page is rendered at 150 dpi, so a PDF
 * point (1/72 inch) becomes 150/72 canvas pixels on both axes; the canvas and
 * the PDF page share the top-left origin. Coordinates are exact reals here.
 */
module Geometry {

  datatype Point = Point(x: real, y: real)

  /** A rectangle stored as its two corners `(x0, y0, x1, y1)`. */
  datatype Rect = Rect(x0: real, y0: real, x1: real, y1: real)

  /** The rasterisation scale `150 / 72` (pixels per point). */
  const SCALE: real := 150.0 / 72.0

  /** The corners are in order: `(x0, y0)` is the top-left one. */
  predicate IsNormal(r: Rect) {
    r.x0 <= r.x1 && r.y0 <= r.y1
  }

  function Height(r: Rect): real {
    r.y1 - r.y0
  }

  /** Orders the corners of a drag from `start` to `end` by swapping each axis whose start is larger. */
  function Normalize(start: Point, end: Point): (r: Rect)
    ensures IsNormal(r)
    ensures multiset{r.x0, r.x1} == multiset{start.x, end.x}
    ensures multiset{r.y0, r.y1} == multiset{start.y, end.y}
  {
    var (x0, x1) := if start.x > end.x then (end.x, start.x) else (start.x, end.x);
    var (y0, y1) := if start.y > end.y then (end.y, start.y) else (start.y, end.y);
    Rect(x0, y0, x1, y1)
  }

  /** Canvas pixels to PDF points: every coordinate divided by the scale. */
  function ToPdf(c: Rect): (p: Rect)
    ensures p.x0 * SCALE == c.x0 && p.y0 * SCALE == c.y0
    ensures p.x1 * SCALE == c.x1 && p.y1 * SCALE == c.y1
  {
    Rect(c.x0 / SCALE, c.y0 / SCALE, c.x1 / SCALE, c.y1 / SCALE)
  }

  /** PDF points to canvas pixels, as fields are drawn: every coordinate times the scale. */
  function ToCanvas(p: Rect): (c: Rect)
    ensures c.x0 / SCALE == p.x0 && c.y0 / SCALE == p.y0
    ensures c.x1 / SCALE == p.x1 && c.y1 / SCALE == p.y1
  {
    Rect(p.x0 * SCALE, p.y0 * SCALE, p.x1 * SCALE, p.y1 * SCALE)
  }

  /** The two conversions undo each other exactly. */
  lemma ScaleRoundTrip(r: Rect)
    ensures ToCanvas(ToPdf(r)) == r
    ensures ToPdf(ToCanvas(r)) == r
  {
  }

  /** Dividing by the positive scale keeps the corners in order, and so does multiplying. */
  lemma ScaleKeepsOrder(r: Rect)
    ensures IsNormal(ToPdf(r)) <==> IsNormal(r)
    ensures IsNormal(ToCanvas(r)) <==> IsNormal(r)
  {
  }

  /**
   * A dragged rectangle, once converted to PDF points, is in order and is
   * drawn back exactly over the normalised drag.
   */
  lemma DragRectangle(start: Point, end: Point)
    ensures IsNormal(ToPdf(Normalize(start, end)))
    ensures ToCanvas(ToPdf(Normalize(start, end))) == Normalize(start, end)
  {
  }
}
