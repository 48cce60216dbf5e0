/** Floating-point rectangles of the game library, on exact reals.

    A rectangle is its top-left corner and its size; right, bottom and
    center are derived from those as the library derives them. Rounding of
    IEEE doubles is not modelled. */
module Geometry {

  datatype Rect = Rect(left: real, top: real, width: real, height: real)
  {
    function Right(): real { left + width }
    function Bottom(): real { top + height }
    function CenterX(): real { left + width / 2.0 }
    function CenterY(): real { top + height / 2.0 }

    /** The same rectangle with its center moved by (dx, dy). */
    function MoveBy(dx: real, dy: real): (r: Rect)
      ensures r.width == width && r.height == height
      ensures r.CenterX() == CenterX() + dx && r.CenterY() == CenterY() + dy
    {
      Rect(left + dx, top + dy, width, height)
    }
  }

  /** The rectangle of size `width` x `height` centred on (cx, cy). */
  function CenteredAt(cx: real, cy: real, width: real, height: real): (r: Rect)
    ensures r.CenterX() == cx && r.CenterY() == cy
    ensures r.width == width && r.height == height
  {
    Rect(cx - width / 2.0, cy - height / 2.0, width, height)
  }
}
