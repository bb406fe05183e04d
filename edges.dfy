/** Hover classification: which edge or corner of the view the pointer is
    near, and which cursor shape goes with it. */
module Edges {
  import opened Geometry

  /** `ResizableNSView.ResizeEdge`; `NoEdge` is the source's `.none`. */
  datatype ResizeEdge = NoEdge | Left | Right | Top | Bottom | TopLeft | TopRight | BottomLeft | BottomRight

  /** The cursor shapes the controller sets. */
  datatype Cursor = Arrow | Crosshair | ResizeLeftRight | ResizeUpDown

  /** The outcome of one classification: the new hover edge and the cursor set. */
  datatype Hover = Hover(edge: ResizeEdge, cursor: Cursor)

  /** Width of the band along each side that counts as "near the edge". */
  const ResizeMargin: real := 5.0

  predicate IsLeft(location: Point, bounds: Rect) { location.x < ResizeMargin }
  predicate IsRight(location: Point, bounds: Rect) { location.x > bounds.width - ResizeMargin }
  predicate IsTop(location: Point, bounds: Rect) { location.y > bounds.height - ResizeMargin }
  predicate IsBottom(location: Point, bounds: Rect) { location.y < ResizeMargin }

  /** The horizontal and vertical components of an edge value. */
  datatype HSide = NoHSide | LeftSide | RightSide
  datatype VSide = NoVSide | TopSide | BottomSide

  function Horizontal(e: ResizeEdge): HSide {
    match e
    case Left | TopLeft | BottomLeft => LeftSide
    case Right | TopRight | BottomRight => RightSide
    case _ => NoHSide
  }

  function Vertical(e: ResizeEdge): VSide {
    match e
    case Top | TopLeft | TopRight => TopSide
    case Bottom | BottomLeft | BottomRight => BottomSide
    case _ => NoVSide
  }

  /** The edge value with the given components. */
  function EdgeOf(h: HSide, v: VSide): (e: ResizeEdge)
    ensures Horizontal(e) == h && Vertical(e) == v
  {
    match (h, v)
    case (NoHSide, NoVSide) => NoEdge
    case (LeftSide, NoVSide) => Left
    case (RightSide, NoVSide) => Right
    case (NoHSide, TopSide) => Top
    case (NoHSide, BottomSide) => Bottom
    case (LeftSide, TopSide) => TopLeft
    case (RightSide, TopSide) => TopRight
    case (LeftSide, BottomSide) => BottomLeft
    case (RightSide, BottomSide) => BottomRight
  }

  /** An edge value is determined by its two components. */
  lemma EdgeOfComponents(e: ResizeEdge)
    ensures EdgeOf(Horizontal(e), Vertical(e)) == e
  {
  }

  predicate IsCorner(e: ResizeEdge) { Horizontal(e) != NoHSide && Vertical(e) != NoVSide }

  /** Diagonal cursor for corners, a two-way arrow for single edges, the
      plain arrow in the interior. */
  function CursorFor(e: ResizeEdge): (c: Cursor)
    ensures IsCorner(e) <==> c == Crosshair
    ensures e == NoEdge <==> c == Arrow
    ensures c == ResizeLeftRight <==> Horizontal(e) != NoHSide && Vertical(e) == NoVSide
    ensures c == ResizeUpDown <==> Horizontal(e) == NoHSide && Vertical(e) != NoVSide
  {
    match e
    case TopLeft | TopRight | BottomLeft | BottomRight => Crosshair
    case Left | Right => ResizeLeftRight
    case Top | Bottom => ResizeUpDown
    case NoEdge => Arrow
  }

  /** The hover classification of `mouseMoved`. Its horizontal component is
      left when the pointer is in the left band, otherwise right when it is in
      the right band; its vertical component is top when the pointer is in the
      top band, otherwise bottom when it is in the bottom band. */
  function Classify(location: Point, bounds: Rect): (r: Hover)
    ensures Horizontal(r.edge) ==
      if IsLeft(location, bounds) then LeftSide
      else if IsRight(location, bounds) then RightSide
      else NoHSide
    ensures Vertical(r.edge) ==
      if IsTop(location, bounds) then TopSide
      else if IsBottom(location, bounds) then BottomSide
      else NoVSide
    ensures r.cursor == CursorFor(r.edge)
  {
    var isLeft := IsLeft(location, bounds);
    var isRight := IsRight(location, bounds);
    var isTop := IsTop(location, bounds);
    var isBottom := IsBottom(location, bounds);
    if isLeft && isTop then Hover(TopLeft, Crosshair)
    else if isRight && isTop then Hover(TopRight, Crosshair)
    else if isLeft && isBottom then Hover(BottomLeft, Crosshair)
    else if isRight && isBottom then Hover(BottomRight, Crosshair)
    else if isLeft || isRight then Hover(if isLeft then Left else Right, ResizeLeftRight)
    else if isTop || isBottom then Hover(if isTop then Top else Bottom, ResizeUpDown)
    else Hover(NoEdge, Arrow)
  }

  /** A point near a horizontal side and near a vertical side lands in a corner
      zone, and only such points do. */
  lemma ClassifyCornerIff(location: Point, bounds: Rect)
    ensures IsCorner(Classify(location, bounds).edge) <==>
      (IsLeft(location, bounds) || IsRight(location, bounds)) &&
      (IsTop(location, bounds) || IsBottom(location, bounds))
  {
  }

  /** On a view at least two margins wide and tall the two horizontal (and the
      two vertical) bands are disjoint, so each pair of adjacent bands gives its
      own corner. */
  lemma ClassifyCorners(location: Point, bounds: Rect)
    requires bounds.width >= 2.0 * ResizeMargin && bounds.height >= 2.0 * ResizeMargin
    ensures IsLeft(location, bounds) && IsTop(location, bounds) ==> Classify(location, bounds).edge == TopLeft
    ensures IsRight(location, bounds) && IsTop(location, bounds) ==> Classify(location, bounds).edge == TopRight
    ensures IsLeft(location, bounds) && IsBottom(location, bounds) ==> Classify(location, bounds).edge == BottomLeft
    ensures IsRight(location, bounds) && IsBottom(location, bounds) ==> Classify(location, bounds).edge == BottomRight
  {
  }

  /** The interior, margins included, is exactly the set of points classified
      as no edge, and those get the arrow cursor. */
  lemma ClassifyNoneIff(location: Point, bounds: Rect)
    ensures Classify(location, bounds).edge == NoEdge <==>
      ResizeMargin <= location.x <= bounds.width - ResizeMargin &&
      ResizeMargin <= location.y <= bounds.height - ResizeMargin
    ensures Classify(location, bounds).edge == NoEdge <==> Classify(location, bounds).cursor == Arrow
  {
  }

  /** A point within the band of exactly one side is classified as that side. */
  lemma ClassifySingleEdge(location: Point, bounds: Rect)
    ensures IsLeft(location, bounds) && !IsRight(location, bounds) && !IsTop(location, bounds) && !IsBottom(location, bounds)
      ==> Classify(location, bounds) == Hover(Left, ResizeLeftRight)
    ensures !IsLeft(location, bounds) && IsRight(location, bounds) && !IsTop(location, bounds) && !IsBottom(location, bounds)
      ==> Classify(location, bounds) == Hover(Right, ResizeLeftRight)
    ensures !IsLeft(location, bounds) && !IsRight(location, bounds) && IsTop(location, bounds) && !IsBottom(location, bounds)
      ==> Classify(location, bounds) == Hover(Top, ResizeUpDown)
    ensures !IsLeft(location, bounds) && !IsRight(location, bounds) && !IsTop(location, bounds) && IsBottom(location, bounds)
      ==> Classify(location, bounds) == Hover(Bottom, ResizeUpDown)
  {
  }

  /** Classification looks only at the x-coordinate against the width and the
      y-coordinate against the height, not at the bounds' origin. */
  lemma ClassifyIgnoresBoundsOrigin(location: Point, bounds: Rect, other: Rect)
    requires other.width == bounds.width && other.height == bounds.height
    ensures Classify(location, other) == Classify(location, bounds)
  {
  }
}
