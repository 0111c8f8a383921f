/** The orthogonal router: turns a polyline into an axis-aligned one by
    inserting at most one bend per segment. */
module OrthoRouter {
  import opened Support
  import opened Shapes

  /** Offsets up to half a unit count as "already on the same row/column". */
  const Tolerance: real := 0.5

  predicate Aligned(p: Point, q: Point) {
    Abs(q.x - p.x) <= Tolerance || Abs(q.y - p.y) <= Tolerance
  }

  /** The corner inserted between two unaligned points: horizontal first
      unless the routing is exactly "v_first". */
  function Bend(prev: Point, curr: Point, routing: string): (b: Point)
    ensures routing == VFirst ==> b.x == prev.x && b.y == curr.y
    ensures routing != VFirst ==> b.x == curr.x && b.y == prev.y
  {
    if routing == VFirst then Point(prev.x, curr.y) else Point(curr.x, prev.y)
  }

  /** What one input segment adds to the path: a bend if it is needed, then its end point. */
  function Leg(prev: Point, curr: Point, routing: string): seq<Point> {
    if Aligned(prev, curr) then [curr] else [Bend(prev, curr, routing), curr]
  }

  /** The routed path of a non-empty point list, one leg per input segment. */
  function Route(pts: seq<Point>, routing: string): (r: seq<Point>)
    requires |pts| >= 1
    ensures |r| >= 1 && r[0] == pts[0] && r[|r| - 1] == pts[|pts| - 1]
    decreases |pts|
  {
    if |pts| == 1 then [pts[0]]
    else Route(pts[..|pts| - 1], routing) + Leg(pts[|pts| - 2], pts[|pts| - 1], routing)
  }

  /** What `ortho_path` returns: fewer than two points come back as they are. */
  function Rectilinear(points: seq<Point>, routing: string): seq<Point> {
    if |points| < 2 then points else Route(points, routing)
  }

  /** `ortho_path`: walks the points, appending a bend before each point
      that is not aligned with the last point already emitted. */
  method OrthoPath(points: seq<Point>, routing: string) returns (result: seq<Point>)
    ensures result == Rectilinear(points, routing)
  {
    if |points| < 2 {
      return points;
    }
    result := [points[0]];
    var i := 1;
    while i < |points|
      invariant 1 <= i <= |points|
      invariant result == Route(points[..i], routing)
    {
      var prev := result[|result| - 1];
      var curr := points[i];
      var dx := Abs(curr.x - prev.x);
      var dy := Abs(curr.y - prev.y);
      if dx > Tolerance && dy > Tolerance {
        if routing == VFirst {
          result := result + [Point(prev.x, curr.y)];
        } else {
          result := result + [Point(curr.x, prev.y)];
        }
      }
      result := result + [curr];
      assert points[..i + 1][..i] == points[..i];
      i := i + 1;
    }
    assert points[..i] == points;
  }

  // ---------------------------------------------------------------------
  // Properties of the routed path
  // ---------------------------------------------------------------------

  /** Every pair of consecutive output points lies on a common row or column
      (within the tolerance). */
  predicate AxisAligned(r: seq<Point>) {
    forall i :: 0 <= i < |r| - 1 ==> Aligned(r[i], r[i + 1])
  }

  lemma {:induction false} RouteAxisAligned(pts: seq<Point>, routing: string)
    requires |pts| >= 1
    ensures AxisAligned(Route(pts, routing))
    decreases |pts|
  {
    if |pts| > 1 {
      var pre := pts[..|pts| - 1];
      RouteAxisAligned(pre, routing);
      var a, leg := Route(pre, routing), Leg(pts[|pts| - 2], pts[|pts| - 1], routing);
      var r := a + leg;
      assert a[|a| - 1] == pts[|pts| - 2];
      forall i | 0 <= i < |r| - 1 ensures Aligned(r[i], r[i + 1]) {
        if i < |a| - 1 {
          assert r[i] == a[i] && r[i + 1] == a[i + 1];
        }
      }
    }
  }

  /** The number of input segments that need a bend. */
  function Bends(pts: seq<Point>): nat
    decreases |pts|
  {
    if |pts| < 2 then 0
    else Bends(pts[..|pts| - 1]) + (if Aligned(pts[|pts| - 2], pts[|pts| - 1]) then 0 else 1)
  }

  predicate InputAligned(pts: seq<Point>) {
    forall i :: 0 <= i < |pts| - 1 ==> Aligned(pts[i], pts[i + 1])
  }

  /** Exactly one point is added per unaligned segment, so the path has
      between n and 2n - 1 points. */
  lemma {:induction false} RouteLength(pts: seq<Point>, routing: string)
    requires |pts| >= 1
    ensures |Route(pts, routing)| == |pts| + Bends(pts)
    ensures Bends(pts) <= |pts| - 1
    ensures |pts| <= |Route(pts, routing)| <= 2 * |pts| - 1
    decreases |pts|
  {
    if |pts| > 1 {
      RouteLength(pts[..|pts| - 1], routing);
    }
  }

  lemma {:induction false} NoBendsIffAligned(pts: seq<Point>)
    ensures Bends(pts) == 0 <==> InputAligned(pts)
    decreases |pts|
  {
    if |pts| >= 2 {
      var pre := pts[..|pts| - 1];
      NoBendsIffAligned(pre);
      if InputAligned(pts) {
        assert InputAligned(pre) by {
          forall i | 0 <= i < |pre| - 1 ensures Aligned(pre[i], pre[i + 1]) {
            assert pre[i] == pts[i] && pre[i + 1] == pts[i + 1];
          }
        }
      }
      if InputAligned(pre) && Aligned(pts[|pts| - 2], pts[|pts| - 1]) {
        forall i | 0 <= i < |pts| - 1 ensures Aligned(pts[i], pts[i + 1]) {
          if i < |pts| - 2 {
            assert pre[i] == pts[i] && pre[i + 1] == pts[i + 1];
          }
        }
      }
    }
  }

  /** An input whose segments are all aligned comes back unchanged, and only
      such an input does. */
  lemma RouteIdentityIffAligned(pts: seq<Point>, routing: string)
    requires |pts| >= 1
    ensures Route(pts, routing) == pts <==> InputAligned(pts)
  {
    RouteLength(pts, routing);
    NoBendsIffAligned(pts);
    if InputAligned(pts) {
      RouteAlignedIsIdentity(pts, routing);
    }
  }

  lemma {:induction false} RouteAlignedIsIdentity(pts: seq<Point>, routing: string)
    requires |pts| >= 1 && InputAligned(pts)
    ensures Route(pts, routing) == pts
    decreases |pts|
  {
    if |pts| > 1 {
      var pre := pts[..|pts| - 1];
      assert InputAligned(pre) by {
        forall i | 0 <= i < |pre| - 1 ensures Aligned(pre[i], pre[i + 1]) {
          assert pre[i] == pts[i] && pre[i + 1] == pts[i + 1];
        }
      }
      RouteAlignedIsIdentity(pre, routing);
      assert Aligned(pts[|pts| - 2], pts[|pts| - 1]);
      assert pre + [pts[|pts| - 1]] == pts;
    }
  }

  /** Where each input point lands in the routed path. */
  function Positions(pts: seq<Point>, routing: string): (idx: seq<nat>)
    requires |pts| >= 1
    ensures |idx| == |pts|
    decreases |pts|
  {
    if |pts| == 1 then [0]
    else Positions(pts[..|pts| - 1], routing) + [|Route(pts, routing)| - 1]
  }

  lemma PositionsEnds(pts: seq<Point>, routing: string)
    requires |pts| >= 1
    ensures Positions(pts, routing)[0] == 0
    ensures Positions(pts, routing)[|pts| - 1] == |Route(pts, routing)| - 1
  {
    if |pts| > 1 {
      var pre := pts[..|pts| - 1];
      PositionsEnds(pre, routing);
    }
  }

  /** The routed path contains every input point, in order, starting with the
      first and ending with the last. */
  lemma {:induction false} RouteKeepsInputs(pts: seq<Point>, routing: string)
    requires |pts| >= 1
    ensures var r, idx := Route(pts, routing), Positions(pts, routing);
      && idx[0] == 0 && idx[|pts| - 1] == |r| - 1
      && (forall k :: 0 <= k < |pts| ==> idx[k] < |r| && r[idx[k]] == pts[k])
      && (forall k :: 0 <= k < |pts| - 1 ==> idx[k] < idx[k + 1])
    decreases |pts|
  {
    PositionsEnds(pts, routing);
    RouteSegments(pts, routing);
    forall k | 0 <= k < |pts| - 1 ensures Positions(pts, routing)[k] < Positions(pts, routing)[k + 1] {
      assert SegmentShape(pts, routing, Route(pts, routing), Positions(pts, routing), k);
    }
    if |pts| > 1 {
      var pre := pts[..|pts| - 1];
      RouteKeepsInputs(pre, routing);
      var a, r := Route(pre, routing), Route(pts, routing);
      var ia, idx := Positions(pre, routing), Positions(pts, routing);
      forall k | 0 <= k < |pts| ensures idx[k] < |r| && r[idx[k]] == pts[k] {
        if k < |pre| {
          assert idx[k] == ia[k] && r[idx[k]] == a[ia[k]] && pre[k] == pts[k];
        }
      }
    }
  }

  /** Between consecutive input points the path holds nothing when their
      segment is aligned, and exactly their bend otherwise. */
  predicate SegmentShape(pts: seq<Point>, routing: string, r: seq<Point>, idx: seq<nat>, k: int)
    requires 0 <= k < |pts| - 1 && |idx| == |pts|
  {
    if Aligned(pts[k], pts[k + 1]) then idx[k + 1] == idx[k] + 1
    else idx[k + 1] == idx[k] + 2 && idx[k] + 1 < |r| && r[idx[k] + 1] == Bend(pts[k], pts[k + 1], routing)
  }

  lemma {:induction false} RouteSegments(pts: seq<Point>, routing: string)
    requires |pts| >= 1
    ensures forall k :: 0 <= k < |pts| - 1 ==>
              SegmentShape(pts, routing, Route(pts, routing), Positions(pts, routing), k)
    decreases |pts|
  {
    if |pts| > 1 {
      var pre := pts[..|pts| - 1];
      RouteSegments(pre, routing);
      PositionsEnds(pre, routing);
      var a, r := Route(pre, routing), Route(pts, routing);
      var ia, idx := Positions(pre, routing), Positions(pts, routing);
      assert r == a + Leg(pts[|pts| - 2], pts[|pts| - 1], routing);
      assert idx == ia + [|r| - 1];
      forall k | 0 <= k < |pts| - 1 ensures SegmentShape(pts, routing, r, idx, k) {
        if k < |pre| - 1 {
          assert SegmentShape(pre, routing, a, ia, k);
          assert pre[k] == pts[k] && pre[k + 1] == pts[k + 1];
          assert idx[k] == ia[k] && idx[k + 1] == ia[k + 1];
          if !Aligned(pts[k], pts[k + 1]) {
            assert r[idx[k] + 1] == a[ia[k] + 1];
          }
        } else {
          assert idx[k] == |a| - 1;
        }
      }
    }
  }
}
