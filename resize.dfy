/** The resize branch of `mouseDragged`: the edge or corner grabbed at the
    start of the gesture decides which sides of the frame follow the pointer;
    every dimension it edits is kept at or above a floor of 100. */
module Resize {
  import opened Geometry
  import opened Edges

  /** The smallest width or height a resize produces. */
  const MinDimension: real := 100.0

  /** The frame after one resize event, starting from the window's `current`
      frame, for a gesture anchored at frame `initial` and a pointer displaced
      by (`deltaX`, `deltaY`) since the anchor. Horizontally, a left edge keeps
      the anchor's right side fixed and a right edge its left side; vertically,
      a bottom edge keeps the anchor's top side fixed and a top edge the origin's
      y. What the edge does not touch keeps its current value. */
  function ResizeFrame(edge: ResizeEdge, initial: Rect, current: Rect, deltaX: real, deltaY: real): (r: Rect)
    ensures Horizontal(edge) == LeftSide ==>
      r.width == Max(initial.width - deltaX, MinDimension) && r.x + r.width == initial.MaxX()
    ensures Horizontal(edge) == RightSide ==>
      r.width == Max(initial.width + deltaX, MinDimension) &&
      r.x == (if edge == TopRight then initial.MinX() else current.x)
    ensures Horizontal(edge) == NoHSide ==> r.x == current.x && r.width == current.width
    ensures Vertical(edge) == BottomSide ==>
      r.height == Max(initial.height - deltaY, MinDimension) && r.y + r.height == initial.MaxY()
    ensures Vertical(edge) == TopSide ==>
      r.height == Max(initial.height + deltaY, MinDimension) && r.y == current.y
    ensures Vertical(edge) == NoVSide ==> r.y == current.y && r.height == current.height
  {
    var newFrame := current;
    match edge
    case Right | BottomRight =>
      var f := newFrame.(width := Max(initial.width + deltaX, MinDimension));
      if edge == BottomRight then
        var h := Max(initial.height - deltaY, MinDimension);
        f.(height := h, y := initial.MaxY() - h)
      else f
    case Bottom =>
      var h := Max(initial.height - deltaY, MinDimension);
      newFrame.(height := h, y := initial.MaxY() - h)
    case Left | BottomLeft =>
      var newWidth := Max(initial.width - deltaX, MinDimension);
      var f := newFrame.(x := initial.MaxX() - newWidth, width := newWidth);
      if edge == BottomLeft then
        var h := Max(initial.height - deltaY, MinDimension);
        f.(height := h, y := initial.MaxY() - h)
      else f
    case Top | TopLeft | TopRight =>
      var f := newFrame.(height := Max(initial.height + deltaY, MinDimension));
      if edge == TopLeft || edge == TopRight then
        var newWidth := if edge == TopLeft then Max(initial.width - deltaX, MinDimension)
                        else Max(initial.width + deltaX, MinDimension);
        f.(x := if edge == TopLeft then initial.MaxX() - newWidth else initial.MinX(), width := newWidth)
      else f
    case NoEdge => newFrame
  }

  /** Every dimension the active edge edits ends at or above the floor, and a
      frame whose size was already at or above it keeps that. */
  lemma ResizeFloors(edge: ResizeEdge, initial: Rect, current: Rect, deltaX: real, deltaY: real)
    ensures Horizontal(edge) != NoHSide ==> ResizeFrame(edge, initial, current, deltaX, deltaY).width >= MinDimension
    ensures Vertical(edge) != NoVSide ==> ResizeFrame(edge, initial, current, deltaX, deltaY).height >= MinDimension
    ensures current.width >= MinDimension && current.height >= MinDimension ==>
      ResizeFrame(edge, initial, current, deltaX, deltaY).width >= MinDimension &&
      ResizeFrame(edge, initial, current, deltaX, deltaY).height >= MinDimension
  {
  }

  /** The sides opposite the grabbed one stay where the anchor frame had them. */
  lemma ResizeAnchoredSides(edge: ResizeEdge, initial: Rect, current: Rect, deltaX: real, deltaY: real)
    ensures edge in {Left, TopLeft, BottomLeft} ==>
      ResizeFrame(edge, initial, current, deltaX, deltaY).MaxX() == initial.MaxX()
    ensures edge in {Bottom, BottomLeft, BottomRight} ==>
      ResizeFrame(edge, initial, current, deltaX, deltaY).MaxY() == initial.MaxY()
    ensures edge == TopRight ==> ResizeFrame(edge, initial, current, deltaX, deltaY).x == initial.MinX()
    ensures edge in {Right, Top} ==> ResizeFrame(edge, initial, current, deltaX, deltaY).Origin() == current.Origin()
  {
  }

  /** With no active edge the frame is left as it is. */
  lemma ResizeNoEdgeKeepsFrame(initial: Rect, current: Rect, deltaX: real, deltaY: real)
    ensures ResizeFrame(NoEdge, initial, current, deltaX, deltaY) == current
  {
  }

  /** Dragging the left edge of the frame (100, 100, 1000, 200) by -50 widens it
      to 1050 and moves its origin to x = 50. */
  lemma ResizeLeftExample()
    ensures ResizeFrame(Left, Rect(100.0, 100.0, 1000.0, 200.0), Rect(100.0, 100.0, 1000.0, 200.0), -50.0, 0.0)
         == Rect(50.0, 100.0, 1050.0, 200.0)
  {
  }

  /** Dragging the bottom edge of the same frame by +30 shrinks it to height
      170 with its top side still at 300. */
  lemma ResizeBottomExample()
    ensures ResizeFrame(Bottom, Rect(100.0, 100.0, 1000.0, 200.0), Rect(100.0, 100.0, 1000.0, 200.0), 0.0, 30.0)
         == Rect(100.0, 130.0, 1000.0, 170.0)
  {
  }

  /** A resize step overwrites exactly the components the edge edits, so a
      second step undoes nothing but the first step's edits. */
  lemma ResizeOverwrites(edge: ResizeEdge, initial: Rect, current: Rect, d1: Point, d2: Point)
    ensures ResizeFrame(edge, initial, ResizeFrame(edge, initial, current, d1.x, d1.y), d2.x, d2.y)
         == ResizeFrame(edge, initial, current, d2.x, d2.y)
  {
  }

  /** The window frame after a run of resize events of one gesture, each with
      its displacement from the anchor pointer. */
  function ResizeGesture(edge: ResizeEdge, initial: Rect, current: Rect, deltas: seq<Point>): Rect
    decreases |deltas|
  {
    if deltas == [] then current
    else ResizeGesture(edge, initial, ResizeFrame(edge, initial, current, deltas[0].x, deltas[0].y), deltas[1..])
  }

  /** Because every event is measured against the anchor taken once per
      gesture, the frame after any run of events is the frame the last event
      alone would give: intermediate events leave no trace. */
  lemma {:induction false} ResizeGestureLastWins(edge: ResizeEdge, initial: Rect, current: Rect, deltas: seq<Point>)
    requires |deltas| > 0
    ensures ResizeGesture(edge, initial, current, deltas)
         == ResizeFrame(edge, initial, current, deltas[|deltas| - 1].x, deltas[|deltas| - 1].y)
    decreases |deltas|
  {
    if |deltas| > 1 {
      var next := ResizeFrame(edge, initial, current, deltas[0].x, deltas[0].y);
      ResizeGestureLastWins(edge, initial, next, deltas[1..]);
      assert deltas[1..][|deltas[1..]| - 1] == deltas[|deltas| - 1];
      ResizeOverwrites(edge, initial, current, deltas[0], deltas[|deltas| - 1]);
    }
  }
}
