/** The move branch of `mouseDragged`: the proposed origin is clamped, axis by
    axis, so that the whole window stays inside the screen's visible frame. */
module Move {
  import opened Geometry

  /** `max(lo, min(v, hi))`: the point of `[lo, hi]` nearest to `v`, and `lo`
      when the interval is empty. */
  function ClampAxis(v: real, lo: real, hi: real): (r: real)
    ensures r >= lo
    ensures lo <= hi ==> r <= hi
    ensures lo <= v <= hi ==> r == v
    ensures lo <= hi && v < lo ==> r == lo
    ensures lo <= hi && v > hi ==> r == hi
    ensures lo > hi ==> r == lo
  {
    Max(lo, Min(v, hi))
  }

  /** A window of the given size placed at `origin` lies inside `screen`. */
  predicate Fits(origin: Point, width: real, height: real, screen: Rect) {
    screen.MinX() <= origin.x && origin.x + width <= screen.MaxX() &&
    screen.MinY() <= origin.y && origin.y + height <= screen.MaxY()
  }

  /** The clamped origin of a window of the given size. */
  function ClampOrigin(p: Point, width: real, height: real, screen: Rect): (r: Point)
    ensures r.x >= screen.MinX() && r.y >= screen.MinY()
    ensures width <= screen.width ==> r.x + width <= screen.MaxX()
    ensures height <= screen.height ==> r.y + height <= screen.MaxY()
    ensures width <= screen.width && height <= screen.height ==> Fits(r, width, height, screen)
    ensures Fits(p, width, height, screen) ==> r == p
  {
    Point(ClampAxis(p.x, screen.MinX(), screen.MaxX() - width),
          ClampAxis(p.y, screen.MinY(), screen.MaxY() - height))
  }

  /** Clamping a clamped origin changes nothing, whether or not the window
      fits on the screen. */
  lemma ClampOriginIdempotent(p: Point, width: real, height: real, screen: Rect)
    ensures ClampOrigin(ClampOrigin(p, width, height, screen), width, height, screen)
         == ClampOrigin(p, width, height, screen)
  {
  }

  /** The origin the move branch gives a window of the given size, for a
      pointer at `mouse` when the gesture was anchored at pointer `anchorMouse`
      and window origin `anchorOrigin`: the anchor origin moved by the pointer's
      displacement, then clamped. While that stays on screen the window follows
      the pointer exactly. */
  function MoveOrigin(anchorMouse: Point, anchorOrigin: Point, mouse: Point,
                      width: real, height: real, screen: Rect): (r: Point)
    ensures r.x >= screen.MinX() && r.y >= screen.MinY()
    ensures width <= screen.width && height <= screen.height ==> Fits(r, width, height, screen)
    ensures var target := Point(anchorOrigin.x + (mouse.x - anchorMouse.x),
                                anchorOrigin.y + (mouse.y - anchorMouse.y));
            Fits(target, width, height, screen) ==> r == target
  {
    var deltaX := mouse.x - anchorMouse.x;
    var deltaY := mouse.y - anchorMouse.y;
    ClampOrigin(Point(anchorOrigin.x + deltaX, anchorOrigin.y + deltaY), width, height, screen)
  }

  /** The drag branch as written re-takes its anchor from the current pointer
      and frame on every event, so the displacement is zero and the step only
      re-clamps the current origin. */
  lemma MoveReanchoredIsClamp(mouse: Point, frame: Rect, screen: Rect)
    ensures MoveOrigin(mouse, frame.Origin(), mouse, frame.width, frame.height, screen)
         == ClampOrigin(frame.Origin(), frame.width, frame.height, screen)
  {
  }

  /** The frame after one move step: only the origin is set. */
  function WithOrigin(frame: Rect, origin: Point): (r: Rect)
    ensures r.Origin() == origin && r.width == frame.width && r.height == frame.height
  {
    frame.(x := origin.x, y := origin.y)
  }

  /** The window frame after a run of drag events handled as written (each
      event re-anchored at itself), on a fixed visible frame. */
  function DragAsWritten(frame: Rect, screen: Rect, mice: seq<Point>): Rect
    decreases |mice|
  {
    if mice == [] then frame
    else
      var next := WithOrigin(frame, MoveOrigin(mice[0], frame.Origin(), mice[0], frame.width, frame.height, screen));
      DragAsWritten(next, screen, mice[1..])
  }

  /** However the pointer moves, a drag handled as written leaves the window at
      its clamped starting origin with its size unchanged; a window already on
      screen does not move at all. */
  lemma {:induction false} DragAsWrittenSettles(frame: Rect, screen: Rect, mice: seq<Point>)
    requires |mice| > 0
    ensures DragAsWritten(frame, screen, mice)
         == WithOrigin(frame, ClampOrigin(frame.Origin(), frame.width, frame.height, screen))
    ensures Fits(frame.Origin(), frame.width, frame.height, screen) ==> DragAsWritten(frame, screen, mice) == frame
    decreases |mice|
  {
    var c := ClampOrigin(frame.Origin(), frame.width, frame.height, screen);
    MoveReanchoredIsClamp(mice[0], frame, screen);
    var next := WithOrigin(frame, c);
    if |mice| > 1 {
      DragAsWrittenSettles(next, screen, mice[1..]);
      ClampOriginIdempotent(frame.Origin(), frame.width, frame.height, screen);
      assert WithOrigin(next, c) == next;
    }
  }

  /** The window frame after a run of drag events all measured against one
      anchor taken at the start of the gesture. */
  function DragAnchored(anchorMouse: Point, anchorOrigin: Point, frame: Rect,
                        screen: Rect, mice: seq<Point>): Rect
    decreases |mice|
  {
    if mice == [] then frame
    else
      var next := WithOrigin(frame, MoveOrigin(anchorMouse, anchorOrigin, mice[0], frame.width, frame.height, screen));
      DragAnchored(anchorMouse, anchorOrigin, next, screen, mice[1..])
  }

  /** With the anchor kept for the whole gesture, the window ends where the last
      pointer position puts it: no drift accumulates over the intermediate events. */
  lemma {:induction false} DragAnchoredFollowsLast(anchorMouse: Point, anchorOrigin: Point, frame: Rect,
                                                 screen: Rect, mice: seq<Point>)
    requires |mice| > 0
    ensures DragAnchored(anchorMouse, anchorOrigin, frame, screen, mice)
         == WithOrigin(frame, MoveOrigin(anchorMouse, anchorOrigin, mice[|mice| - 1], frame.width, frame.height, screen))
    decreases |mice|
  {
    if |mice| > 1 {
      var next := WithOrigin(frame, MoveOrigin(anchorMouse, anchorOrigin, mice[0], frame.width, frame.height, screen));
      DragAnchoredFollowsLast(anchorMouse, anchorOrigin, next, screen, mice[1..]);
      assert mice[1..][|mice[1..]| - 1] == mice[|mice| - 1];
    }
  }
}
