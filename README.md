# SubtitleCover overlay: pointer-gesture controller

SubtitleCover shows a borderless, always-on-top, semi-transparent overlay
window used to hide subtitles. The only logic in it is `ResizableNSView`, the
view that turns mouse events into moves and resizes of that window:

- **Hover classification** (`mouseMoved`). The pointer's local position is
  compared with a 5-unit band along each side of the view. The result is one
  of nine `ResizeEdge` values plus the cursor shape to show. Corners are tested
  before single edges. Left wins over right, and top over bottom.
- **Gesture state** (`mouseDown`, `mouseUp`, `mouseExited`). Five fields hold
  the state: `isResizing`, `isDragging`, the anchor pointer, the anchor frame
  and the hover edge.
- **Move** (the drag branch of `mouseDragged`). The window origin is clamped
  axis by axis into the visible frame of its screen.
- **Resize** (the resize branch of `mouseDragged`). The edge grabbed at press
  time moves its sides of the window frame. Every edited dimension stays at or
  above 100, and the new size is copied into the shared `WindowSettings`.

## Layout

- `geometry.dfy`, module `Geometry`: `Option`, `Point`, `Rect`, and the choice of
  visible frame (window's screen, then main screen, then the zero rectangle).
- `edges.dfy`, module `Edges`: `ResizeEdge`, the cursor shapes and `Classify`.
  An edge value is split into a horizontal part (left/right/none) and a vertical
  part (top/bottom/none). `Classify` is specified by which part each band gives.
- `move.dfy`, module `Move`: the per-axis clamp and the move step. It also has
  two recursive functions over a run of drag events. One replays the step as
  written, re-anchored on every event. The other keeps one anchor for the whole
  gesture.
- `resize.dfy`, module `Resize`: the per-edge resize rule. It is specified by
  its horizontal and vertical effects, and `ResizeGesture` replays a run of
  resize events.
- `view.dfy`, module `View`: class `ResizableNSView`. It holds the five gesture
  fields and refers to a `HostWindow` (the `NSWindow`, reduced to its frame) and
  a `WindowSettings` (its `width`/`height`). Each event handler is a method whose
  postcondition gives the whole new state. The pure functions above specify that
  state. `GestureValid` is the gesture invariant, and every handler keeps it. Two
  client methods replay whole gestures from the methods' contracts:
  `LeftEdgeGestureScenario` and `MoveGestureScenario`.

`CGFloat` is modelled as exact `real`. The host supplies pointer positions,
the view bounds and the screens' visible frames as method inputs. Cursor
changes are returned as values.

On the drag branch the model follows the code as it is written. Lines 107-108
of `ResizableView.swift` declare new local optionals that shadow the anchor
fields. They are always empty, so the anchor is re-taken from the current
pointer and frame on every event, and the step only re-clamps the current
origin (`MoveReanchoredIsClamp`, `DragAsWrittenSettles`). The window is created
with `isMovableByWindowBackground` set (`AppDelegate.swift:45`). That flag may
let AppKit move the window during a drag; the model does not capture that, and
it does not report the re-clamp as a defect. The same `MoveOrigin` function,
given the anchor stored once at press time, gives the anchor-once variant
(`DragAnchoredFollowsLast`).

In three places the code behaves differently from what a reader might expect; the model follows the code:

- `mouseUp` does not reset the cursor.
- A second `mouseDown` during a gesture is not ignored; it starts a new gesture
  from the current hover edge.
- The recorded anchor pointer is in view coordinates, while the resize pointer
  is in window coordinates. Both are taken as given.

## Model

| member | source | states |
|---|---|---|
| `Geometry.ScreenFrame` | SubtitleCover/ResizableView.swift:133 | selector helper: the clamp uses the window's screen's visible frame, else the main screen's, else the zero rectangle |
| `Edges.EdgeOf` | SubtitleCover/ResizableView.swift:43-45 | each of the nine edge values is exactly one choice of horizontal side (left/right/none) and vertical side (top/bottom/none) |
| `Edges.EdgeOfComponents` | SubtitleCover/ResizableView.swift:43-45 | an edge value is recovered from its two components, so the split is one-to-one |
| `Edges.CursorFor` | SubtitleCover/ResizableView.swift:222-243 | corners get the crosshair, left/right the left-right cursor, top/bottom the up-down cursor, no edge the arrow, and no two groups share a cursor |
| `Edges.Classify` | SubtitleCover/ResizableView.swift:215-243 | horizontal part is left when x < 5, else right when x > width-5, else none; vertical part is top when y > height-5, else bottom when y < 5, else none; the cursor is the one for the edge |
| `Edges.ClassifyCornerIff` | SubtitleCover/ResizableView.swift:222-233 | the result is a corner exactly when the point is in a horizontal band and a vertical band |
| `Edges.ClassifyCorners` | SubtitleCover/ResizableView.swift:222-233 | on a view at least 10 by 10, each pair of adjacent bands gives its own corner (topLeft, topRight, bottomLeft, bottomRight) |
| `Edges.ClassifyNoneIff` | SubtitleCover/ResizableView.swift:217-243 | no edge exactly when 5 <= x <= width-5 and 5 <= y <= height-5, and exactly then the arrow cursor |
| `Edges.ClassifySingleEdge` | SubtitleCover/ResizableView.swift:234-239 | a point in exactly one band gives that side's edge and its two-way cursor |
| `Edges.ClassifyIgnoresBoundsOrigin` | SubtitleCover/ResizableView.swift:217-220 | the result depends only on the location and the bounds' width and height |
| `Move.ClampAxis` | SubtitleCover/ResizableView.swift:136-137 | `max(lo, min(v, hi))` is never below lo, at most hi when lo <= hi, v itself when v is in range, the nearer end otherwise, and lo when the range is empty |
| `Move.ClampOrigin` | SubtitleCover/ResizableView.swift:136-137 | the clamped origin is never left of or below the visible frame; the window lies inside it whenever it fits; an on-screen origin is kept |
| `Move.ClampOriginIdempotent` | SubtitleCover/ResizableView.swift:136-137 | clamping twice is the same as clamping once, even for a window larger than the screen |
| `Move.MoveOrigin` | SubtitleCover/ResizableView.swift:123-137 | the new origin satisfies the clamp bounds, and equals anchor origin plus pointer displacement whenever that target is on screen |
| `Move.MoveReanchoredIsClamp` | SubtitleCover/ResizableView.swift:107-130 | with the anchor re-taken from the current pointer and frame, the move step gives the clamped current origin |
| `Move.WithOrigin` | SubtitleCover/ResizableView.swift:143 | a move sets the origin only; width and height are kept |
| `Move.DragAsWrittenSettles` | SubtitleCover/ResizableView.swift:102-144 | after any non-empty run of drag events as written, the window is at its clamped starting origin with its size kept; a window already on screen does not move |
| `Move.DragAnchoredFollowsLast` | SubtitleCover/ResizableView.swift:123-137 | with one anchor for the whole gesture, the frame after a run of drag events is the one the last pointer position alone gives |
| `Resize.ResizeFrame` | SubtitleCover/ResizableView.swift:159-189 | left edges set width max(w0-dx,100) and keep the anchor's right side; right edges set max(w0+dx,100), with x = anchor minX for topRight only; bottom edges set max(h0-dy,100) and keep the anchor's top side; top edges set max(h0+dy,100) and keep y; untouched components keep their current values |
| `Resize.ResizeFloors` | SubtitleCover/ResizableView.swift:164-183 | every dimension the edge edits is at least 100, and a frame at least 100 by 100 stays so |
| `Resize.ResizeAnchoredSides` | SubtitleCover/ResizableView.swift:163-186 | left, topLeft and bottomLeft keep maxX; bottom, bottomLeft and bottomRight keep maxY; topRight sets x to the anchor's minX; right and top keep the origin |
| `Resize.ResizeNoEdgeKeepsFrame` | SubtitleCover/ResizableView.swift:187-188 | with no active edge the frame is unchanged |
| `Resize.ResizeLeftExample` | SubtitleCover/ResizableView.swift:172-175 | left edge of (100,100,1000,200) dragged by -50 gives (50,100,1050,200) |
| `Resize.ResizeBottomExample` | SubtitleCover/ResizableView.swift:169-171 | bottom edge of (100,100,1000,200) dragged by +30 gives height 170 and y 130, so maxY stays 300 |
| `Resize.ResizeOverwrites` | SubtitleCover/ResizableView.swift:161-186 | a second resize step of the same gesture replaces all of the first step's edits |
| `Resize.ResizeGestureLastWins` | SubtitleCover/ResizableView.swift:151-193 | the frame after any non-empty run of resize events equals the frame the last event alone gives, because the anchor is taken once per gesture |
| `View.WindowSettings.constructor` | SubtitleCover/WindowSettings.swift:7-8 | the overlay size starts at 1000 by 200 |
| `View.GestureValidModes` | SubtitleCover/ResizableView.swift:66-71 | under the gesture invariant `GestureValid` (kept by every handler) the two flags never both hold, a resize always has its anchor pointer, and an idle view has no anchors; so the resize branch's "anchor if missing" path at lines 151-154 is never taken |
| `View.ResizableNSView.constructor` | SubtitleCover/ResizableView.swift:35-40 | a new view is idle: flags false, no anchors, no hover edge |
| `View.ResizableNSView.MouseDown` | SubtitleCover/ResizableView.swift:66-71 | sets both anchors and sets isResizing to (edge != none) and isDragging to its negation, so exactly one gesture starts; the edge is unchanged |
| `View.ResizableNSView.MouseDragged` | SubtitleCover/ResizableView.swift:90-199 | no window: no change; move: only the window origin changes, to the clamped current origin; resize: anchors once if needed, the frame becomes the edge rule's result and the settings get its width and height; frames at least 100 by 100 stay so; the gesture invariant is kept, and under it a resize leaves the gesture fields untouched |
| `View.ResizableNSView.MouseUp` | SubtitleCover/ResizableView.swift:202-207 | the state becomes idle whatever it was, so a second call changes nothing |
| `View.ResizableNSView.MouseMoved` | SubtitleCover/ResizableView.swift:212-243 | with a window, the hover edge is the classification of the location alone and its cursor is returned; without one, no change and no cursor |
| `View.ResizableNSView.MouseExited` | SubtitleCover/ResizableView.swift:252-255 | clears only the hover edge and returns the arrow; flags and anchors are kept, so a resize continued after an exit leaves the frame unchanged |

## Left out

- SwiftUI presentation (`ResizableView.body`, `ResizableNSViewRepresentable`): rendering and bridging with no logic.
- Tracking-area registration, `NSAnimationContext` and the animator, `os_log`, and the AppKit initialisers: platform plumbing. The model's constructors take the settings and the host window directly.
- Coordinate conversions (`convert(_:from:)`, `convertPoint(fromScreen:)`), `NSEvent.mouseLocation` and the screen queries: host calls. Their results are method inputs.
- `DragAsWritten`, `DragAnchored`: the visible frame is modelled as fixed over the gesture, although the host may report a different screen as the window moves. Between events the frame is changed only by the handler; any movement by AppKit's own window dragging is not modelled.
- `ResizeGesture`: the edge and the anchor frame are held fixed over the run of events, as they are while the resize gesture lasts.
- `NSCursor.set()`: a global side effect. It is modelled as a returned cursor value.
- Floating-point behaviour of `CGFloat`: modelled as exact real arithmetic, with no rounding, infinities or NaN.
- Negative rectangle sizes: `minX`/`maxX` are taken as `x` and `x + width`. The standardisation `CGRect` applies to negative widths is not modelled.
- `AppDelegate.swift` (menus, window creation) and `SettingsView.swift` (sliders, colour picker): UI glue with no logic.
- `WindowSettings` colour, opacity and corner radius: rendering only. Only `width` and `height` are modelled.
