/** Values shared by every part of the gesture controller: an optional value,
    points and rectangles in AppKit's coordinate system (origin at the lower
    left, y growing upwards), with `CGFloat` modelled as exact `real`. */
module Geometry {

  datatype Option<T> = None | Some(value: T)

  /** An `NSPoint`. */
  datatype Point = Point(x: real, y: real)

  /** An `NSRect`: origin plus size. */
  datatype Rect = Rect(x: real, y: real, width: real, height: real) {
    function MinX(): real { x }
    function MaxX(): real { x + width }
    function MinY(): real { y }
    function MaxY(): real { y + height }
    function Origin(): Point { Point(x, y) }
  }

  /** `NSRect.zero`. */
  const ZeroRect: Rect := Rect(0.0, 0.0, 0.0, 0.0)

  function Max(a: real, b: real): (r: real)
    ensures r >= a && r >= b && (r == a || r == b)
  {
    if a >= b then a else b
  }

  function Min(a: real, b: real): (r: real)
    ensures r <= a && r <= b && (r == a || r == b)
  {
    if a <= b then a else b
  }

  /** The visible frame a drag clamps against: that of the window's own
      screen, else that of the main screen, else the zero rectangle. */
  function ScreenFrame(windowScreen: Option<Rect>, mainScreen: Option<Rect>): (r: Rect)
    ensures windowScreen.Some? ==> r == windowScreen.value
    ensures windowScreen.None? && mainScreen.Some? ==> r == mainScreen.value
    ensures windowScreen.None? && mainScreen.None? ==> r == ZeroRect
  {
    match windowScreen
    case Some(s) => s
    case None => match mainScreen
      case Some(m) => m
      case None => ZeroRect
  }
}
