/** The geometric rules of the editor's gestures: grid snapping, building a
    shape from a drag, resizing by a corner handle and moving a shape. */
module DrawingRules {
  import opened Support
  import opened Shapes

  // ---------------------------------------------------------------------
  // Grid snapping
  // ---------------------------------------------------------------------

  /** Python's `round` on a float: to the nearest integer, halves to the
      even neighbour. */
  function RoundHalfEven(v: real): (k: int)
    ensures -0.5 <= v - k as real <= 0.5
    ensures v - k as real == 0.5 || v - k as real == -0.5 ==> k % 2 == 0
  {
    var f := v.Floor;
    var frac := v - f as real;
    if frac < 0.5 then f
    else if frac > 0.5 then f + 1
    else if f % 2 == 0 then f else f + 1
  }

  /** The nearest integer is unique except at halves, where the even one
      is taken, so the two conditions above pin the result down. */
  lemma RoundHalfEvenUnique(v: real, k: int)
    requires -0.5 <= v - k as real <= 0.5
    requires v - k as real == 0.5 || v - k as real == -0.5 ==> k % 2 == 0
    ensures RoundHalfEven(v) == k
  {
  }

  /** The spacings the View menu offers; the editor starts at 20. */
  predicate MenuSpacing(sp: int) {
    sp == 10 || sp == 20 || sp == 30 || sp == 40 || sp == 50
  }

  const DefaultSpacing: int := 20

  /** One coordinate to the grid, `round(x / sp) * sp`: within half a
      spacing of where it was. The spacing is one of the menu's, and the
      formula is written out for each of them so that every division and
      product is by a constant. */
  function GridSnap(x: real, sp: int): (g: real)
    requires MenuSpacing(sp)
    ensures -(sp as real) / 2.0 <= g - x <= (sp as real) / 2.0
  {
    if sp == 10 then (RoundHalfEven(x / 10.0) * 10) as real
    else if sp == 20 then (RoundHalfEven(x / 20.0) * 20) as real
    else if sp == 30 then (RoundHalfEven(x / 30.0) * 30) as real
    else if sp == 40 then (RoundHalfEven(x / 40.0) * 40) as real
    else (RoundHalfEven(x / 50.0) * 50) as real
  }

  /** `snap_point`: both coordinates to the grid, or the point unchanged
      when snapping is off. */
  function SnapPoint(enabled: bool, sp: int, p: Point): (r: Point)
    requires MenuSpacing(sp)
    ensures !enabled ==> r == p
  {
    if enabled then Point(GridSnap(p.x, sp), GridSnap(p.y, sp)) else p
  }

  /** A snapped coordinate is a multiple of the spacing within half a
      spacing of the original. */
  lemma GridSnapNearest(x: real, sp: int)
    requires MenuSpacing(sp)
    ensures exists k: int :: GridSnap(x, sp) == (k * sp) as real
    ensures -(sp as real) / 2.0 <= GridSnap(x, sp) - x <= (sp as real) / 2.0
  {
    var k := RoundHalfEven(x / sp as real);
    if sp == 10 {
      assert GridSnap(x, sp) == (k * 10) as real;
    } else if sp == 20 {
      assert GridSnap(x, sp) == (k * 20) as real;
    } else if sp == 30 {
      assert GridSnap(x, sp) == (k * 30) as real;
    } else if sp == 40 {
      assert GridSnap(x, sp) == (k * 40) as real;
    } else {
      assert GridSnap(x, sp) == (k * 50) as real;
    }
  }

  /** Points already on the grid stay where they are. */
  lemma GridSnapOnGrid(k: int, sp: int)
    requires MenuSpacing(sp)
    ensures GridSnap((k * sp) as real, sp) == (k * sp) as real
  {
    if sp == 10 {
      assert (k * 10) as real / 10.0 == k as real;
    } else if sp == 20 {
      assert (k * 20) as real / 20.0 == k as real;
    } else if sp == 30 {
      assert (k * 30) as real / 30.0 == k as real;
    } else if sp == 40 {
      assert (k * 40) as real / 40.0 == k as real;
    } else {
      assert (k * 50) as real / 50.0 == k as real;
    }
    RoundHalfEvenUnique(k as real, k);
  }

  /** Snapping twice is snapping once. */
  lemma SnapPointIdempotent(enabled: bool, sp: int, p: Point)
    requires MenuSpacing(sp)
    ensures SnapPoint(enabled, sp, SnapPoint(enabled, sp, p)) == SnapPoint(enabled, sp, p)
  {
    if enabled {
      GridSnapNearest(p.x, sp);
      GridSnapNearest(p.y, sp);
      var kx: int :| GridSnap(p.x, sp) == (kx * sp) as real;
      var ky: int :| GridSnap(p.y, sp) == (ky * sp) as real;
      GridSnapOnGrid(kx, sp);
      GridSnapOnGrid(ky, sp);
    }
  }

  // ---------------------------------------------------------------------
  // Creating a shape from a drag
  // ---------------------------------------------------------------------

  /** Drags shorter than this on both axes create nothing. */
  const MinDrag: real := 3.0

  /** A drag is too small when its end stays strictly inside the square
      of half-side `MinDrag` around its start. */
  function TooSmall(x1: real, y1: real, x2: real, y2: real): (r: bool)
    ensures r <==> x1 - MinDrag < x2 < x1 + MinDrag && y1 - MinDrag < y2 < y1 + MinDrag
  {
    Abs(x2 - x1) < MinDrag && Abs(y2 - y1) < MinDrag
  }

  /** The far coordinate of a square drag: `size` away from the anchor, on
      the side the pointer went (the negative side when it did not move). */
  function SquareEnd(anchor: real, pointer: real, size: real): (e: real)
    ensures pointer > anchor ==> e == anchor + size
    ensures pointer <= anchor ==> e == anchor - size
  {
    if pointer > anchor then anchor + size else anchor - size
  }

  /** `create_shape`: nothing for a tiny drag; a circle centred on the press
      point with the drag length as radius (`radius` is that Euclidean
      length); a square with the larger extent on both axes; otherwise the
      dragged box as it is. A square keeps the press corner, has equal
      sides of the larger extent and opens towards the pointer. */
  function CreateShape(kind: ShapeType, x1: real, y1: real, x2: real, y2: real, radius: real,
                       color: string, width: int, fill: Option<string>): (r: Option<Shape>)
    requires kind == Circle ==> radius >= 0.0 && radius * radius == (x2 - x1) * (x2 - x1) + (y2 - y1) * (y2 - y1)
    ensures r.None? <==> TooSmall(x1, y1, x2, y2)
    ensures r.Some? ==> && r.value.kind == kind && r.value.color == color && r.value.width == width
                        && r.value.fillColor == fill && r.value.shapeId == 0 && r.value.connections == []
                        && r.value.routing == HFirst && r.value.waypoints == []
    ensures r.Some? && kind == Circle ==>
              && (r.value.x1 + r.value.x2) / 2.0 == x1 && (r.value.y1 + r.value.y2) / 2.0 == y1
              && r.value.x2 - r.value.x1 == 2.0 * radius && r.value.y2 - r.value.y1 == 2.0 * radius
    ensures r.Some? && kind == Square ==>
              && r.value.x1 == x1 && r.value.y1 == y1
              && Abs(r.value.x2 - r.value.x1) == Abs(r.value.y2 - r.value.y1) == Max(Abs(x2 - x1), Abs(y2 - y1))
              && Abs(r.value.x2 - r.value.x1) >= MinDrag
              && (x2 > x1 <==> r.value.x2 > r.value.x1) && (y2 > y1 <==> r.value.y2 > r.value.y1)
    ensures r.Some? && kind != Circle && kind != Square ==>
              r.value.x1 == x1 && r.value.y1 == y1 && r.value.x2 == x2 && r.value.y2 == y2
  {
    if TooSmall(x1, y1, x2, y2) then None
    else if kind == Circle then
      Some(NewShape(x1 - radius, y1 - radius, x1 + radius, y1 + radius, color, width, kind).(fillColor := fill))
    else if kind == Square then
      var size := Max(Abs(x2 - x1), Abs(y2 - y1));
      Some(NewShape(x1, y1, SquareEnd(x1, x2, size), SquareEnd(y1, y2, size), color, width, kind).(fillColor := fill))
    else
      Some(NewShape(x1, y1, x2, y2, color, width, kind).(fillColor := fill))
  }

  // ---------------------------------------------------------------------
  // Resizing by a corner handle
  // ---------------------------------------------------------------------

  datatype Handle = NW | NE | SW | SE

  /** The box corner a handle drags moves to the pointer: a west handle
      sets x1 and an east one x2, a north handle y1 and a south one y2;
      the opposite coordinates and every other field stay. */
  function DragCorner(s: Shape, h: Handle, p: Point): (r: Shape)
    ensures r.(x1 := s.x1, y1 := s.y1, x2 := s.x2, y2 := s.y2) == s
    ensures h == NW || h == SW ==> r.x1 == p.x && r.x2 == s.x2
    ensures h == NE || h == SE ==> r.x2 == p.x && r.x1 == s.x1
    ensures h == NW || h == NE ==> r.y1 == p.y && r.y2 == s.y2
    ensures h == SW || h == SE ==> r.y2 == p.y && r.y1 == s.y1
  {
    match h
    case NW => s.(x1 := p.x, y1 := p.y)
    case NE => s.(x2 := p.x, y1 := p.y)
    case SW => s.(x1 := p.x, y2 := p.y)
    case SE => s.(x2 := p.x, y2 := p.y)
  }

  /** The square branch: drag the corner, then pull the dragged corner
      back along both axes to the larger extent, keeping its side of the
      opposite corner. The result is a square whose sides have the larger
      extent of the dragged box, the corner opposite the handle stays put,
      and nothing but the corners changes. */
  function ResizeSquare(s: Shape, h: Handle, p: Point): (r: Shape)
    ensures var t := DragCorner(s, h, p);
      Abs(r.x2 - r.x1) == Abs(r.y2 - r.y1) == Max(Abs(t.x2 - t.x1), Abs(t.y2 - t.y1))
    ensures h == SE ==> r.x1 == s.x1 && r.y1 == s.y1
    ensures h == NW ==> r.x2 == s.x2 && r.y2 == s.y2
    ensures h == NE ==> r.x1 == s.x1 && r.y2 == s.y2
    ensures h == SW ==> r.x2 == s.x2 && r.y1 == s.y1
    ensures r.(x1 := s.x1, y1 := s.y1, x2 := s.x2, y2 := s.y2) == s
  {
    var t := DragCorner(s, h, p);
    var size := Max(Abs(t.x2 - t.x1), Abs(t.y2 - t.y1));
    match h
    case SE => t.(x2 := t.x1 + (if t.x2 > t.x1 then size else -size),
                  y2 := t.y1 + (if t.y2 > t.y1 then size else -size))
    case NW => t.(x1 := t.x2 - (if t.x2 > t.x1 then size else -size),
                  y1 := t.y2 - (if t.y2 > t.y1 then size else -size))
    case NE => t.(x2 := t.x1 + (if t.x2 > t.x1 then size else -size),
                  y1 := t.y2 - (if t.y2 > t.y1 then size else -size))
    case SW => t.(x1 := t.x2 - (if t.x2 > t.x1 then size else -size),
                  y2 := t.y1 + (if t.y2 > t.y1 then size else -size))
  }

  /** The smallest radius or half-axis a resize leaves. */
  const MinRadius: real := 5.0

  /** The resize gesture for one pointer position. `center` is the box
      centre taken when the resize began (used by circles and ellipses)
      and, for circles, `dist` is the pointer's Euclidean distance from it.
      Only the corners change; a square stays square, and a shape that is
      neither square, circle nor ellipse has just its dragged corner
      moved. */
  function Resize(s: Shape, h: Handle, p: Point, center: Point, dist: real): (r: Shape)
    requires s.kind == Circle ==>
               dist >= 0.0 && dist * dist == (p.x - center.x) * (p.x - center.x) + (p.y - center.y) * (p.y - center.y)
    ensures r.(x1 := s.x1, y1 := s.y1, x2 := s.x2, y2 := s.y2) == s
    ensures s.kind == Square ==> Abs(r.x2 - r.x1) == Abs(r.y2 - r.y1)
    ensures s.kind !in {Square, Circle, Ellipse} ==> r == DragCorner(s, h, p)
  {
    match s.kind
    case Square => ResizeSquare(s, h, p)
    case Circle =>
      var radius := Max(dist, MinRadius);
      s.(x1 := center.x - radius, y1 := center.y - radius, x2 := center.x + radius, y2 := center.y + radius)
    case Ellipse =>
      var rx, ry := Max(Abs(p.x - center.x), MinRadius), Max(Abs(p.y - center.y), MinRadius);
      s.(x1 := center.x - rx, y1 := center.y - ry, x2 := center.x + rx, y2 := center.y + ry)
    case _ => DragCorner(s, h, p)
  }

  /** Circles and ellipses are resized about the centre they had when the
      resize began, never below the minimum radius; a circle stays round. */
  lemma ResizeAboutCenter(s: Shape, h: Handle, p: Point, center: Point, dist: real)
    requires s.kind == Circle || s.kind == Ellipse
    requires s.kind == Circle ==>
               dist >= 0.0 && dist * dist == (p.x - center.x) * (p.x - center.x) + (p.y - center.y) * (p.y - center.y)
    ensures var r := Resize(s, h, p, center, dist);
      && (r.x1 + r.x2) / 2.0 == center.x && (r.y1 + r.y2) / 2.0 == center.y
      && r.x2 - r.x1 >= 2.0 * MinRadius && r.y2 - r.y1 >= 2.0 * MinRadius
      && (s.kind == Circle ==> r.x2 - r.x1 == r.y2 - r.y1 == 2.0 * Max(dist, MinRadius))
      && (s.kind == Ellipse ==>
            && r.x2 - r.x1 == 2.0 * Max(Abs(p.x - center.x), MinRadius)
            && r.y2 - r.y1 == 2.0 * Max(Abs(p.y - center.y), MinRadius))
  {
  }

  // ---------------------------------------------------------------------
  // Moving
  // ---------------------------------------------------------------------

  /** The move branch of a drag: the first corner and every waypoint shift
      by the pointer delta; a text shape's second corner is set to its
      first, any other shape's shifts too. */
  function Moved(s: Shape, dx: real, dy: real): (r: Shape)
    ensures r.x1 == s.x1 + dx && r.y1 == s.y1 + dy
    ensures s.kind == Text ==> r.x2 == r.x1 && r.y2 == r.y1
    ensures s.kind != Text ==> r.x2 == s.x2 + dx && r.y2 == s.y2 + dy
    ensures |r.waypoints| == |s.waypoints|
    ensures forall i :: 0 <= i < |s.waypoints| ==> r.waypoints[i] == Shift(s.waypoints[i], dx, dy)
    ensures r.(x1 := s.x1, y1 := s.y1, x2 := s.x2, y2 := s.y2, waypoints := s.waypoints) == s
  {
    var x1, y1 := s.x1 + dx, s.y1 + dy;
    s.(x1 := x1, y1 := y1,
       x2 := if s.kind == Text then x1 else s.x2 + dx,
       y2 := if s.kind == Text then y1 else s.y2 + dy,
       waypoints := ShiftAll(s.waypoints, dx, dy))
  }

  /** Two drag steps add up to one; a non-text shape keeps its size and
      a zero step leaves it alone. */
  lemma MovedCompose(s: Shape, dx1: real, dy1: real, dx2: real, dy2: real)
    ensures Moved(Moved(s, dx1, dy1), dx2, dy2) == Moved(s, dx1 + dx2, dy1 + dy2)
    ensures s.kind != Text ==> Moved(s, 0.0, 0.0) == s
  {
    var a, b := Moved(Moved(s, dx1, dy1), dx2, dy2), Moved(s, dx1 + dx2, dy1 + dy2);
    assert a.waypoints == b.waypoints;
    if s.kind != Text {
      assert Moved(s, 0.0, 0.0).waypoints == s.waypoints;
    }
  }

  /** A moved non-text shape's bounding box is the old one shifted. */
  lemma MovedBounds(s: Shape, dx: real, dy: real)
    requires s.kind != Text
    ensures GetBounds(Moved(s, dx, dy)) ==
            Bounds(GetBounds(s).minX + dx, GetBounds(s).minY + dy, GetBounds(s).maxX + dx, GetBounds(s).maxY + dy)
  {
  }

  // ---------------------------------------------------------------------
  // Finishing an orthogonal connector
  // ---------------------------------------------------------------------

  /** A connector ending within 3 units of its start on both axes and with
      no waypoints is dropped. */
  function OrthoTooSmall(start: Point, end: Point, waypoints: seq<Point>): (r: bool)
    ensures waypoints != [] ==> !r
    ensures waypoints == [] ==>
              (r <==> start.x - MinDrag < end.x < start.x + MinDrag && start.y - MinDrag < end.y < start.y + MinDrag)
  {
    TooSmall(start.x, start.y, end.x, end.y) && waypoints == []
  }
}
