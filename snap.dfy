/** The snap engine: the nearest anchor of a non-line shape within the snap
    distance of a query point, scanning shapes in list order and each
    shape's anchors in their fixed order. */
module SnapEngine {
  import opened Support
  import opened Shapes

  /** `snap_distance`; distances are compared squared, so the scan starts
      from its square. */
  const SnapDistance: real := 15.0
  const SnapLimit: real := SnapDistance * SnapDistance

  /** The anchors a shape offers, in the order the scan visits them:
      8 for rectangles and squares (corners, then edge midpoints), the 4
      cardinal points of circles and ellipses, the 3 triangle vertices,
      and none for lines and text. */
  function Anchors(s: Shape): (a: seq<Point>)
    ensures (s.kind == Rectangle || s.kind == Square) ==> |a| == 8
    ensures (s.kind == Circle || s.kind == Ellipse) ==> |a| == 4
    ensures s.kind == Triangle ==> |a| == 3
    ensures (IsLineType(s.kind) || s.kind == Text) ==> a == []
  {
    var cx, cy := (s.x1 + s.x2) / 2.0, (s.y1 + s.y2) / 2.0;
    match s.kind
    case Rectangle | Square =>
      [Point(s.x1, s.y1), Point(s.x2, s.y1), Point(s.x1, s.y2), Point(s.x2, s.y2),
       Point(cx, s.y1), Point(cx, s.y2), Point(s.x1, cy), Point(s.x2, cy)]
    case Circle | Ellipse =>
      var rx, ry := Abs(s.x2 - s.x1) / 2.0, Abs(s.y2 - s.y1) / 2.0;
      [Point(cx - rx, cy), Point(cx + rx, cy), Point(cx, cy - ry), Point(cx, cy + ry)]
    case Triangle =>
      [Point(cx, s.y1), Point(s.x1, s.y2), Point(s.x2, s.y2)]
    case _ => []
  }

  /** A shape takes part in the scan unless it equals the excluded shape or
      is a connector. */
  predicate Eligible(s: Shape, exclude: Option<Shape>) {
    exclude != Some(s) && !IsLineType(s.kind)
  }

  /** An anchor point together with the list index of the shape offering it. */
  datatype Candidate = Candidate(p: Point, owner: nat)

  function Tagged(ps: seq<Point>, owner: nat): (r: seq<Candidate>)
    ensures |r| == |ps|
    ensures forall j :: 0 <= j < |ps| ==> r[j] == Candidate(ps[j], owner)
  {
    if |ps| == 0 then [] else Tagged(ps[..|ps| - 1], owner) + [Candidate(ps[|ps| - 1], owner)]
  }

  /** The anchors one shape contributes to the scan. */
  function ShapeCandidates(s: Shape, exclude: Option<Shape>, owner: nat): seq<Candidate> {
    if Eligible(s, exclude) then Tagged(Anchors(s), owner) else []
  }

  /** Every anchor the scan visits, in visiting order. */
  function Candidates(ss: seq<Shape>, exclude: Option<Shape>): (r: seq<Candidate>)
    decreases |ss|
  {
    if |ss| == 0 then []
    else
      var last := |ss| - 1;
      Candidates(ss[..last], exclude) + ShapeCandidates(ss[last], exclude, last)
  }

  /** Every visited anchor belongs to an eligible shape at the index it
      is tagged with. */
  lemma {:induction false} CandidatesSound(ss: seq<Shape>, exclude: Option<Shape>)
    ensures forall c :: c in Candidates(ss, exclude) ==>
              c.owner < |ss| && Eligible(ss[c.owner], exclude) && c.p in Anchors(ss[c.owner])
    decreases |ss|
  {
    if |ss| > 0 {
      var last := |ss| - 1;
      CandidatesSound(ss[..last], exclude);
      forall c | c in Candidates(ss, exclude)
        ensures c.owner < |ss| && Eligible(ss[c.owner], exclude) && c.p in Anchors(ss[c.owner])
      {
        if c in Candidates(ss[..last], exclude) {
          assert ss[..last][c.owner] == ss[c.owner];
        } else {
          assert c in ShapeCandidates(ss[last], exclude, last);
          var a := Anchors(ss[last]);
          var j :| 0 <= j < |a| && Tagged(a, last)[j] == c;
          assert c.owner == last && c.p == a[j];
        }
      }
    }
  }

  /** Every point of a list appears in its tagged form. */
  lemma TaggedHas(ps: seq<Point>, owner: nat, p: Point)
    requires p in ps
    ensures Candidate(p, owner) in Tagged(ps, owner)
  {
    var j :| 0 <= j < |ps| && ps[j] == p;
    assert Tagged(ps, owner)[j] == Candidate(p, owner);
  }

  /** Every anchor of every eligible shape is visited. */
  lemma {:induction false} CandidatesComplete(ss: seq<Shape>, exclude: Option<Shape>, i: nat, p: Point)
    requires i < |ss| && Eligible(ss[i], exclude) && p in Anchors(ss[i])
    ensures Candidate(p, i) in Candidates(ss, exclude)
    decreases |ss|
  {
    var last := |ss| - 1;
    if i < last {
      assert ss[..last][i] == ss[i];
      CandidatesComplete(ss[..last], exclude, i, p);
      CandidatesGrow(ss, exclude, Candidate(p, i));
    } else {
      LastCandidates(ss, exclude, p);
    }
  }

  /** The candidates of a prefix stay candidates. */
  lemma CandidatesGrow(ss: seq<Shape>, exclude: Option<Shape>, c: Candidate)
    requires |ss| > 0 && c in Candidates(ss[..|ss| - 1], exclude)
    ensures c in Candidates(ss, exclude)
  {
  }

  /** The anchors of the last shape, when it is eligible, are candidates. */
  lemma LastCandidates(ss: seq<Shape>, exclude: Option<Shape>, p: Point)
    requires |ss| > 0 && Eligible(ss[|ss| - 1], exclude) && p in Anchors(ss[|ss| - 1])
    ensures Candidate(p, |ss| - 1) in Candidates(ss, exclude)
  {
    var last := |ss| - 1;
    TaggedHas(Anchors(ss[last]), last, p);
    assert ShapeCandidates(ss[last], exclude, last) == Tagged(Anchors(ss[last]), last);
  }

  function Dist2(p: Point, q: Point): real {
    (p.x - q.x) * (p.x - q.x) + (p.y - q.y) * (p.y - q.y)
  }

  /** The scan's accumulator: the current snap point, the index of the shape
      it came from (None while nothing has been closer than the limit) and
      the squared distance to beat. */
  datatype Snap = Snap(p: Point, owner: Option<nat>, best: real)

  function Step(st: Snap, q: Point, c: Candidate): Snap {
    var d := Dist2(q, c.p);
    if d < st.best then Snap(c.p, Some(c.owner), d) else st
  }

  /** The scan over a candidate list, as a fold from the query point itself.
      While no candidate has come strictly closer than the limit the point
      stays the query point; once an owner is named, the distance to beat
      is that point's own squared distance, and it is below the limit. */
  function Scan(q: Point, cs: seq<Candidate>): (r: Snap)
    ensures r.owner.None? ==> r.p == q && r.best == SnapLimit
    ensures r.owner.Some? ==> r.best == Dist2(q, r.p) && r.best < SnapLimit
    decreases |cs|
  {
    if |cs| == 0 then Snap(q, None, SnapLimit)
    else Step(Scan(q, cs[..|cs| - 1]), q, cs[|cs| - 1])
  }

  /** Index k holds the first candidate at the least distance from q. */
  ghost predicate FirstNearest(q: Point, cs: seq<Candidate>, k: int) {
    && 0 <= k < |cs|
    && (forall j :: 0 <= j < k ==> Dist2(q, cs[j].p) > Dist2(q, cs[k].p))
    && (forall j :: k <= j < |cs| ==> Dist2(q, cs[j].p) >= Dist2(q, cs[k].p))
  }

  /** What `get_snap_point` promises, stated without the scan: no candidate
      is strictly closer than the limit and the point stays put, or the
      result is the first nearest candidate and it is strictly within the
      limit. */
  ghost predicate SnapsTo(q: Point, cs: seq<Candidate>, p: Point, owner: Option<nat>) {
    if owner.None? then p == q && forall j :: 0 <= j < |cs| ==> Dist2(q, cs[j].p) >= SnapLimit
    else exists k :: FirstNearest(q, cs, k) && Dist2(q, cs[k].p) < SnapLimit
                     && p == cs[k].p && owner == Some(cs[k].owner)
  }

  ghost predicate ScanInv(q: Point, cs: seq<Candidate>, st: Snap) {
    && SnapsTo(q, cs, st.p, st.owner)
    && (forall j :: 0 <= j < |cs| ==> Dist2(q, cs[j].p) >= st.best)
  }

  lemma {:induction false} ScanMeetsSpec(q: Point, cs: seq<Candidate>)
    ensures ScanInv(q, cs, Scan(q, cs))
    decreases |cs|
  {
    if |cs| > 0 {
      var pre, c := cs[..|cs| - 1], cs[|cs| - 1];
      ScanMeetsSpec(q, pre);
      StepKeepsInv(q, pre, c, Scan(q, pre));
      assert cs == pre + [c];
    }
  }

  /** One step of the scan keeps its invariant. */
  lemma StepKeepsInv(q: Point, pre: seq<Candidate>, c: Candidate, st: Snap)
    requires ScanInv(q, pre, st)
    requires st.owner.None? ==> st.p == q && st.best == SnapLimit
    requires st.owner.Some? ==> st.best == Dist2(q, st.p)
    ensures ScanInv(q, pre + [c], Step(st, q, c))
  {
    var cs := pre + [c];
    assert forall j :: 0 <= j < |pre| ==> cs[j] == pre[j];
    if Dist2(q, c.p) < st.best {
      assert FirstNearest(q, cs, |pre|);
    } else if st.owner.Some? {
      var k :| FirstNearest(q, pre, k) && Dist2(q, pre[k].p) < SnapLimit
               && st.p == pre[k].p && st.owner == Some(pre[k].owner);
      assert FirstNearest(q, cs, k);
    }
  }

  /** The scan result is exactly the one `SnapsTo` describes. */
  lemma ScanSpec(q: Point, cs: seq<Candidate>)
    ensures SnapsTo(q, cs, Scan(q, cs).p, Scan(q, cs).owner)
  {
    ScanMeetsSpec(q, cs);
  }

  /** `SnapsTo` leaves no choice: at most one point and owner meet it. */
  lemma SnapsToUnique(q: Point, cs: seq<Candidate>, p1: Point, o1: Option<nat>, p2: Point, o2: Option<nat>)
    requires SnapsTo(q, cs, p1, o1) && SnapsTo(q, cs, p2, o2)
    ensures p1 == p2 && o1 == o2
  {
    if o1.Some? && o2.Some? {
      var k1 :| FirstNearest(q, cs, k1) && Dist2(q, cs[k1].p) < SnapLimit
                && p1 == cs[k1].p && o1 == Some(cs[k1].owner);
      var k2 :| FirstNearest(q, cs, k2) && Dist2(q, cs[k2].p) < SnapLimit
                && p2 == cs[k2].p && o2 == Some(cs[k2].owner);
      assert k1 == k2;
    }
  }

  /** A snap either leaves the point where it was or lands it on an anchor
      of the shape it names. */
  lemma ScanLands(q: Point, cs: seq<Candidate>)
    ensures var st := Scan(q, cs);
      (st.owner.None? ==> st.p == q) && (st.owner.Some? ==> Candidate(st.p, st.owner.value) in cs)
  {
    ScanMeetsSpec(q, cs);
    var st := Scan(q, cs);
    if st.owner.Some? {
      var k :| FirstNearest(q, cs, k) && Dist2(q, cs[k].p) < SnapLimit
               && st.p == cs[k].p && st.owner == Some(cs[k].owner);
      assert cs[k] == Candidate(st.p, st.owner.value);
    }
  }

  /** One more candidate is one more step of the fold. */
  lemma ScanAppend(q: Point, cs: seq<Candidate>, c: Candidate)
    ensures Scan(q, cs + [c]) == Step(Scan(q, cs), q, c)
  {
    assert (cs + [c])[..|cs|] == cs;
  }

  lemma TaggedAppend(ps: seq<Point>, j: nat, owner: nat)
    requires j < |ps|
    ensures Tagged(ps[..j + 1], owner) == Tagged(ps[..j], owner) + [Candidate(ps[j], owner)]
  {
    assert ps[..j + 1][..j] == ps[..j];
  }

  /** The candidates of one more shape follow those of the shapes before it. */
  lemma CandidatesAppend(ss: seq<Shape>, i: nat, exclude: Option<Shape>)
    requires i < |ss|
    ensures Candidates(ss[..i + 1], exclude) == Candidates(ss[..i], exclude) + ShapeCandidates(ss[i], exclude, i)
  {
    assert ss[..i + 1][..i] == ss[..i];
  }

  /** The snap of point q among the shapes, leaving out `exclude`. */
  function FindSnap(q: Point, ss: seq<Shape>, exclude: Option<Shape>): (r: Snap)
    ensures r.owner.None? ==> r.p == q
    ensures r.owner.Some? ==>
              r.owner.value < |ss| && Eligible(ss[r.owner.value], exclude) && r.p in Anchors(ss[r.owner.value])
  {
    ScanLands(q, Candidates(ss, exclude));
    CandidatesSound(ss, exclude);
    Scan(q, Candidates(ss, exclude))
  }

  /** Only the non-connector shapes matter: two lists that differ only in
      connectors have the same candidates. */
  ghost predicate SameSolids(ss: seq<Shape>, ts: seq<Shape>) {
    |ss| == |ts| &&
    forall i :: 0 <= i < |ss| ==>
      ss[i] == ts[i] || (IsLineType(ss[i].kind) && IsLineType(ts[i].kind))
  }

  lemma {:induction false} CandidatesIgnoreLines(ss: seq<Shape>, ts: seq<Shape>, exclude: Option<Shape>)
    requires SameSolids(ss, ts)
    ensures Candidates(ss, exclude) == Candidates(ts, exclude)
    decreases |ss|
  {
    if |ss| > 0 {
      var last := |ss| - 1;
      CandidatesIgnoreLines(ss[..last], ts[..last], exclude);
    }
  }

  /** Excluding a connector is the same as excluding nothing. */
  lemma {:induction false} CandidatesExcludeLine(ss: seq<Shape>, line: Shape)
    requires IsLineType(line.kind)
    ensures Candidates(ss, Some(line)) == Candidates(ss, None)
    decreases |ss|
  {
    if |ss| > 0 {
      CandidatesExcludeLine(ss[..|ss| - 1], line);
    }
  }
}
