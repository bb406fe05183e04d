/** `ResizableNSView`: the view that turns pointer events into moves and
    resizes of the overlay window. The host window and the shared settings are
    objects the view refers to; the pointer positions, the view's bounds and the
    screens' visible frames arrive as inputs, already converted by the host. */
module View {
  import opened Geometry
  import opened Edges
  import opened Move
  import opened Resize

  /** The part of `WindowSettings` the controller writes: the overlay size. */
  class WindowSettings {
    var width: real
    var height: real

    constructor ()
      ensures width == 1000.0 && height == 200.0
    {
      width := 1000.0;
      height := 200.0;
    }
  }

  /** The host `NSWindow`, reduced to its frame. */
  class HostWindow {
    var frame: Rect

    constructor (frame: Rect)
      ensures this.frame == frame
    {
      this.frame := frame;
    }
  }

  /** The five gesture fields of the view, as one value. */
  datatype Gesture = Gesture(isResizing: bool, isDragging: bool,
                             initialMouseLocation: Option<Point>, initialFrame: Option<Rect>,
                             resizeEdge: ResizeEdge)

  /** The state between two gestures, as `mouseUp` leaves it. */
  const Idle: Gesture := Gesture(false, false, None, None, NoEdge)

  /** The gesture invariant: at most one gesture at a time, an anchor pointer
      exactly while a gesture is on, and no anchor frame without it. */
  predicate GestureValid(g: Gesture) {
    !(g.isDragging && g.isResizing) &&
    ((g.isDragging || g.isResizing) <==> g.initialMouseLocation.Some?) &&
    (g.initialFrame.Some? ==> g.initialMouseLocation.Some?)
  }

  /** Under the invariant the two flags never hold together, and a resize in
      progress always has the anchor pointer `mouseDown` recorded, so the resize
      branch's "anchor if missing" path is never taken. */
  lemma GestureValidModes(g: Gesture)
    requires GestureValid(g)
    ensures !(g.isDragging && g.isResizing)
    ensures g.isResizing ==> g.initialMouseLocation.Some?
    ensures !g.isDragging && !g.isResizing ==> g.initialMouseLocation.None? && g.initialFrame.None?
  {
  }

  class ResizableNSView {
    var settings: WindowSettings
    var window: HostWindow?
    var isResizing: bool
    var isDragging: bool
    var initialMouseLocation: Option<Point>
    var initialFrame: Option<Rect>
    var resizeEdge: ResizeEdge

    function State(): Gesture
      reads this
    {
      Gesture(isResizing, isDragging, initialMouseLocation, initialFrame, resizeEdge)
    }

    predicate Valid()
      reads this
    {
      GestureValid(State())
    }

    /** A view shown in `window` (or in none yet), idle. */
    constructor (settings: WindowSettings, window: HostWindow?)
      ensures this.settings == settings && this.window == window
      ensures State() == Idle && Valid()
    {
      this.settings := settings;
      this.window := window;
      isResizing := false;
      isDragging := false;
      initialMouseLocation := None;
      initialFrame := None;
      resizeEdge := NoEdge;
    }

    /** Starts a resize when the pointer hovers over an edge, a move otherwise,
        anchored at the pointer's local position and the window's frame. */
    method MouseDown(location: Point)
      modifies this
      ensures window == old(window) && settings == old(settings)
      ensures State() == Gesture(old(resizeEdge) != NoEdge, old(resizeEdge) == NoEdge,
                                 Some(location), if window == null then None else Some(window.frame),
                                 old(resizeEdge))
      ensures isResizing != isDragging
      ensures Valid()
    {
      initialMouseLocation := Some(location);
      initialFrame := if window == null then None else Some(window.frame);
      isResizing := resizeEdge != NoEdge;
      isDragging := !isResizing;
    }

    /** One drag event. `screenMouse` is the pointer on screen and `windowMouse`
        the same pointer in window coordinates; `windowScreen` and `mainScreen`
        are the visible frames of the window's screen and of the main screen,
        when there are such screens. Without a window nothing happens. A move
        re-anchors at the current pointer and frame, so it re-clamps the current
        origin. A resize anchors on its first event if `mouseDown` did not, then
        applies the active edge's rule to the window and copies the new size into
        the settings. */
    method MouseDragged(screenMouse: Point, windowMouse: Point,
                        windowScreen: Option<Rect>, mainScreen: Option<Rect>)
      modifies this, window, settings
      ensures window == old(window) && settings == old(settings)
      ensures window == null ==> unchanged(this, settings)
      ensures window != null && old(isDragging) ==>
        unchanged(this, settings) &&
        window.frame == WithOrigin(old(window.frame),
          ClampOrigin(old(window.frame).Origin(), old(window.frame).width, old(window.frame).height,
                      ScreenFrame(windowScreen, mainScreen)))
      ensures window != null && !old(isDragging) && old(isResizing) ==>
        var anchored := old(initialMouseLocation).None?;
        var mouse0 := if anchored then Some(windowMouse) else old(initialMouseLocation);
        var frame0 := if anchored then Some(old(window.frame)) else old(initialFrame);
        State() == old(State()).(initialMouseLocation := mouse0, initialFrame := frame0) &&
        (frame0.None? ==> window.frame == old(window.frame) && unchanged(settings)) &&
        (frame0.Some? ==>
          window.frame == ResizeFrame(resizeEdge, frame0.value, old(window.frame),
                                      windowMouse.x - mouse0.value.x, windowMouse.y - mouse0.value.y) &&
          settings.width == window.frame.width && settings.height == window.frame.height)
      ensures window != null && !old(isDragging) && !old(isResizing) ==> unchanged(this, window, settings)
      ensures window != null && old(window.frame).width >= MinDimension && old(window.frame).height >= MinDimension ==>
        window.frame.width >= MinDimension && window.frame.height >= MinDimension
      ensures old(Valid()) && old(isResizing) ==> State() == old(State())
      ensures old(Valid()) ==> Valid()
    {
      if window == null {
        return;
      }
      if isDragging {
        var currentMouseLocation := screenMouse;
        // The anchor is held in fresh locals that start out empty, so it is
        // re-taken from the current pointer and frame on every event.
        var anchorMouse: Option<Point> := None;
        var anchorFrame: Option<Rect> := None;
        if anchorMouse.None? {
          anchorMouse := Some(currentMouseLocation);
          anchorFrame := Some(window.frame);
        }
        if anchorMouse.None? || anchorFrame.None? {
          return;
        }
        var screenFrame := ScreenFrame(windowScreen, mainScreen);
        var newOrigin := MoveOrigin(anchorMouse.value, anchorFrame.value.Origin(), currentMouseLocation,
                                    window.frame.width, window.frame.height, screenFrame);
        MoveReanchoredIsClamp(currentMouseLocation, window.frame, screenFrame);
        window.frame := WithOrigin(window.frame, newOrigin);
      } else if isResizing {
        if initialMouseLocation.None? {
          initialMouseLocation := Some(windowMouse);
          initialFrame := Some(window.frame);
        }
        if initialMouseLocation.None? || initialFrame.None? {
          return;
        }
        var deltaX := windowMouse.x - initialMouseLocation.value.x;
        var deltaY := windowMouse.y - initialMouseLocation.value.y;
        ResizeFloors(resizeEdge, initialFrame.value, window.frame, deltaX, deltaY);
        var newFrame := ResizeFrame(resizeEdge, initialFrame.value, window.frame, deltaX, deltaY);
        window.frame := newFrame;
        settings.width := newFrame.width;
        settings.height := newFrame.height;
      }
    }

    /** Ends any gesture: both flags off, both anchors cleared, no hover edge.
        The new state does not depend on the old one, so a second call changes
        nothing. */
    method MouseUp()
      modifies this
      ensures window == old(window) && settings == old(settings)
      ensures State() == Idle && Valid()
    {
      isResizing := false;
      isDragging := false;
      initialMouseLocation := None;
      initialFrame := None;
      resizeEdge := NoEdge;
    }

    /** Re-classifies the hover edge from the pointer's local position alone and
        returns the cursor to set; without a window nothing happens and no
        cursor is set. */
    method MouseMoved(location: Point, bounds: Rect) returns (cursor: Option<Cursor>)
      modifies this
      ensures window == old(window) && settings == old(settings)
      ensures window == null ==> cursor == None && State() == old(State())
      ensures window != null ==>
        State() == old(State()).(resizeEdge := Classify(location, bounds).edge) &&
        cursor == Some(Classify(location, bounds).cursor)
      ensures old(Valid()) ==> Valid()
    {
      if window == null {
        return None;
      }
      var hover := Classify(location, bounds);
      resizeEdge := hover.edge;
      cursor := Some(hover.cursor);
    }

    /** Leaving the view clears the hover edge and restores the arrow cursor;
        a gesture in progress keeps its flags and anchors. */
    method MouseExited() returns (cursor: Cursor)
      modifies this
      ensures window == old(window) && settings == old(settings)
      ensures State() == old(State()).(resizeEdge := NoEdge)
      ensures cursor == Arrow
      ensures old(Valid()) ==> Valid()
    {
      cursor := Arrow;
      resizeEdge := NoEdge;
    }
  }

  /** A whole gesture on the default overlay: hover near the left side, press,
      drag 50 to the left, leave the view, drag again, release twice. */
  method LeftEdgeGestureScenario()
  {
    var settings := new WindowSettings();
    var window := new HostWindow(Rect(100.0, 100.0, settings.width, settings.height));
    var view := new ResizableNSView(settings, window);
    var bounds := Rect(0.0, 0.0, 1000.0, 200.0);

    var cursor := view.MouseMoved(Point(2.0, 100.0), bounds);
    assert view.resizeEdge == Left && cursor == Some(ResizeLeftRight);

    view.MouseDown(Point(2.0, 100.0));
    assert view.isResizing && !view.isDragging;

    view.MouseDragged(Point(52.0, 200.0), Point(-48.0, 100.0), None, None);
    assert window.frame == Rect(50.0, 100.0, 1050.0, 200.0);
    assert settings.width == 1050.0 && settings.height == 200.0;

    var exitCursor := view.MouseExited();
    assert view.isResizing && view.resizeEdge == NoEdge && exitCursor == Arrow;
    view.MouseDragged(Point(0.0, 200.0), Point(-100.0, 100.0), None, None);
    assert window.frame == Rect(50.0, 100.0, 1050.0, 200.0);

    view.MouseUp();
    var once := view.State();
    view.MouseUp();
    assert view.State() == once == Idle;
  }

  /** A move gesture on a window partly off screen: the drag clamps it back
      inside the visible frame without resizing it, and a further drag leaves it
      there. */
  method MoveGestureScenario()
  {
    var settings := new WindowSettings();
    var window := new HostWindow(Rect(-30.0, 100.0, 1000.0, 200.0));
    var view := new ResizableNSView(settings, window);
    var screen := Rect(0.0, 25.0, 1440.0, 875.0);

    var cursor := view.MouseMoved(Point(500.0, 100.0), Rect(0.0, 0.0, 1000.0, 200.0));
    assert view.resizeEdge == NoEdge && cursor == Some(Arrow);
    view.MouseDown(Point(500.0, 100.0));
    assert view.isDragging && !view.isResizing;

    view.MouseDragged(Point(600.0, 300.0), Point(630.0, 200.0), Some(screen), None);
    assert window.frame == Rect(0.0, 100.0, 1000.0, 200.0);
    view.MouseDragged(Point(900.0, 500.0), Point(900.0, 400.0), Some(screen), None);
    assert window.frame == Rect(0.0, 100.0, 1000.0, 200.0);
    assert settings.width == 1000.0 && settings.height == 200.0;
    view.MouseUp();
  }
}
