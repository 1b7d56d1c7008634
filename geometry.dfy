/**
 The plane of the Paper.js view: points and axis-aligned rectangles, with coordinates
 as mathematical reals (the browser's floating point is not modelled).
 */
module Geometry {

  /** A `paper.Point`; also used for a drag delta. */
  datatype Point = Point(x: real, y: real) {

    function Add(d: Point): Point {
      Point(x + d.x, y + d.y)
    }

    function Sub(q: Point): Point {
      Point(x - q.x, y - q.y)
    }

    function Neg(): Point {
      Point(-x, -y)
    }
  }

  /** A `paper.Rectangle`: its top-left corner and its size. */
  datatype Rect = Rect(topLeft: Point, width: real, height: real) {

    function Left(): real { topLeft.x }

    function Top(): real { topLeft.y }

    function Right(): real { topLeft.x + width }

    function Bottom(): real { topLeft.y + height }

    function Center(): Point {
      Point(topLeft.x + width / 2.0, topLeft.y + height / 2.0)
    }

    /** Midpoint of the top edge. */
    function TopMid(): Point {
      Point(Center().x, Top())
    }

    /** Midpoint of the right edge. */
    function RightMid(): Point {
      Point(Right(), Center().y)
    }

    /** The same rectangle moved by `d`. */
    function Translate(d: Point): (r: Rect)
      ensures r.width == width && r.height == height
      ensures r.Center() == Center().Add(d)
      ensures r.TopMid() == TopMid().Add(d) && r.RightMid() == RightMid().Add(d)
    {
      Rect(topLeft.Add(d), width, height)
    }
  }

  /** The rectangle of the given size whose centre is `center`. */
  function CenteredRect(center: Point, width: real, height: real): (r: Rect)
    ensures r.Center() == center && r.width == width && r.height == height
    ensures r.Left() == center.x - width / 2.0 && r.Right() == center.x + width / 2.0
    ensures r.Top() == center.y - height / 2.0 && r.Bottom() == center.y + height / 2.0
  {
    Rect(Point(center.x - width / 2.0, center.y - height / 2.0), width, height)
  }

  /** A rectangle is determined by its centre and its size. */
  lemma CenteredRectUnique(r: Rect)
    ensures CenteredRect(r.Center(), r.width, r.height) == r
  {
  }
}
