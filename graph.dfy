/** The connection graph between connectors and shapes: cascading deletion,
    re-snapping pinned endpoints after a move or a reload, and re-pinning an
    endpoint after it is dropped. */
module ShapeGraph {
  import opened Support
  import opened Shapes
  import opened SnapEngine

  // ---------------------------------------------------------------------
  // Deletion
  // ---------------------------------------------------------------------

  /** The connections that do not point at `id`, in their order. */
  function DropTarget(conns: seq<Connection>, id: int): (r: seq<Connection>)
    ensures forall c :: c in r <==> c in conns && c.targetId != id
    ensures |r| <= |conns|
    ensures (forall c :: c in conns ==> c.targetId != id) ==> r == conns
    decreases |conns|
  {
    if |conns| == 0 then []
    else
      var last := conns[|conns| - 1];
      assert conns == conns[..|conns| - 1] + [last];
      DropTarget(conns[..|conns| - 1], id) + (if last.targetId != id then [last] else [])
  }

  /** One shape of `delete_shape`'s loop: it loses exactly its
      connections to `id` and keeps everything else. */
  function Detach(s: Shape, id: int): (r: Shape)
    ensures r == s.(connections := r.connections)
  {
    s.(connections := DropTarget(s.connections, id))
  }

  function DetachAll(ss: seq<Shape>, id: int): (r: seq<Shape>)
    ensures |r| == |ss|
    ensures forall i :: 0 <= i < |ss| ==> r[i] == Detach(ss[i], id)
  {
    seq(|ss|, i requires 0 <= i < |ss| => Detach(ss[i], id))
  }

  /** The position `list.index` finds: the first element equal to x. */
  function IndexOf(ss: seq<Shape>, x: Shape): (i: nat)
    requires x in ss
    ensures i < |ss| && ss[i] == x
  {
    if ss[0] == x then 0 else 1 + IndexOf(ss[1..], x)
  }

  /** No element before the position found equals x. */
  lemma {:induction false} IndexOfFirst(ss: seq<Shape>, x: Shape)
    requires x in ss
    ensures forall j :: 0 <= j < IndexOf(ss, x) ==> ss[j] != x
  {
    if ss[0] != x {
      IndexOfFirst(ss[1..], x);
      forall j | 0 < j < IndexOf(ss, x) ensures ss[j] != x {
        assert ss[j] == ss[1..][j - 1];
      }
    }
  }

  /** `delete_shape`: unknown shapes are ignored; otherwise every connection
      to the shape is dropped and then the first list element equal to the
      shape (which has itself lost its connections to its own id) goes. */
  function Delete(ss: seq<Shape>, shape: Shape): (r: seq<Shape>)
    ensures shape !in ss ==> r == ss
    ensures shape in ss ==> |r| == |ss| - 1
  {
    if shape !in ss then ss
    else
      var detached := DetachAll(ss, shape.shapeId);
      var gone := Detach(shape, shape.shapeId);
      assert detached[IndexOf(ss, shape)] == gone;
      var k := IndexOf(detached, gone);
      detached[..k] + detached[k + 1..]
  }

  /** After a deletion no connection points at the deleted shape's id. */
  lemma DeleteLeavesNoDangling(ss: seq<Shape>, shape: Shape)
    requires shape in ss
    ensures forall t, c :: t in Delete(ss, shape) && c in t.connections ==> c.targetId != shape.shapeId
  {
    var detached := DetachAll(ss, shape.shapeId);
    assert detached[IndexOf(ss, shape)] == Detach(shape, shape.shapeId);
    forall t | t in Delete(ss, shape) ensures t in detached { }
  }

  /** `Delete` on a present shape: the detached list without the first
      element equal to the detached shape. */
  lemma DeleteUnfolds(ss: seq<Shape>, shape: Shape)
    requires shape in ss
    ensures Detach(shape, shape.shapeId) in DetachAll(ss, shape.shapeId)
    ensures var d := DetachAll(ss, shape.shapeId);
      var k := IndexOf(d, Detach(shape, shape.shapeId));
      Delete(ss, shape) == d[..k] + d[k + 1..]
  {
    DetachedPresent(ss, shape);
  }

  /** The detached copy of a listed shape is in the detached list. */
  lemma DetachedPresent(ss: seq<Shape>, shape: Shape)
    requires shape in ss
    ensures Detach(shape, shape.shapeId) in DetachAll(ss, shape.shapeId)
  {
    assert DetachAll(ss, shape.shapeId)[IndexOf(ss, shape)] == Detach(shape, shape.shapeId);
  }

  /** The position at which `Delete` removes an element. */
  lemma DeletedAt(ss: seq<Shape>, shape: Shape) returns (k: nat)
    requires shape in ss
    ensures k < |ss| && Detach(ss[k], shape.shapeId) == Detach(shape, shape.shapeId)
    ensures Delete(ss, shape) == DetachAll(ss, shape.shapeId)[..k] + DetachAll(ss, shape.shapeId)[k + 1..]
  {
    var detached := DetachAll(ss, shape.shapeId);
    assert detached[IndexOf(ss, shape)] == Detach(shape, shape.shapeId);
    k := IndexOf(detached, Detach(shape, shape.shapeId));
  }

  /** Deletion removes exactly one shape, and it is one equal to the deleted
      shape once connections are disregarded; every other shape keeps its
      place and all its fields except the dropped connections. */
  lemma DeleteRemovesOne(ss: seq<Shape>, shape: Shape)
    requires shape in ss
    ensures exists k :: 0 <= k < |ss|
              && Detach(ss[k], shape.shapeId) == Detach(shape, shape.shapeId)
              && Delete(ss, shape) == DetachAll(ss, shape.shapeId)[..k] + DetachAll(ss, shape.shapeId)[k + 1..]
  {
    var k := DeletedAt(ss, shape);
  }

  predicate UniqueIds(ss: seq<Shape>) {
    forall i, j :: 0 <= i < j < |ss| ==> ss[i].shapeId != ss[j].shapeId
  }

  /** The ids of a list the manager has registered: each positive, below
      the counter `next`, and used once. */
  predicate IdsIssued(ss: seq<Shape>, next: int) {
    UniqueIds(ss) && forall i :: 0 <= i < |ss| ==> 0 < ss[i].shapeId < next
  }

  /** Two lists of the same length with the same id at every position
      have the same issued ids. */
  lemma SameIdsIssued(ss: seq<Shape>, ts: seq<Shape>, next: int)
    requires IdsIssued(ss, next) && |ts| == |ss|
    requires forall i :: 0 <= i < |ss| ==> ts[i].shapeId == ss[i].shapeId
    ensures IdsIssued(ts, next)
  {
  }

  /** Removing position k of a detached list leaves, at each position, the
      detached shape that was there or one further along. */
  lemma RemovedIds(ss: seq<Shape>, id: int, k: nat)
    requires k < |ss|
    ensures var r := DetachAll(ss, id)[..k] + DetachAll(ss, id)[k + 1..];
      forall i :: 0 <= i < |r| ==> r[i].shapeId == ss[if i < k then i else i + 1].shapeId
  {
  }

  /** With unique ids, the deleted id is gone from the list and the other
      ids stay unique. */
  lemma DeleteRemovesId(ss: seq<Shape>, shape: Shape)
    requires shape in ss && UniqueIds(ss)
    ensures forall t :: t in Delete(ss, shape) ==> t.shapeId != shape.shapeId
    ensures UniqueIds(Delete(ss, shape))
  {
    var k := DeletedAt(ss, shape);
    RemovedIds(ss, shape.shapeId, k);
    assert ss[k].shapeId == shape.shapeId;
  }

  // ---------------------------------------------------------------------
  // Following moved targets
  // ---------------------------------------------------------------------

  /** Connection c pins endpoint e to one of the targets in ids. */
  predicate Pins(c: Connection, ids: set<int>, e: Endpoint) {
    c.targetId in ids && c.endpoint == e
  }

  function PinCount(conns: seq<Connection>, ids: set<int>, e: Endpoint): nat
    decreases |conns|
  {
    if |conns| == 0 then 0
    else PinCount(conns[..|conns| - 1], ids, e) + (if Pins(conns[|conns| - 1], ids, e) then 1 else 0)
  }

  /** One line's pass over its connections: each connection to a target in
      ids re-snaps the endpoint it names, starting from where that endpoint
      is at that moment. */
  function Resnap(s: Shape, conns: seq<Connection>, ids: set<int>, cs: seq<Candidate>): (r: Shape)
    ensures r.(x1 := s.x1, y1 := s.y1, x2 := s.x2, y2 := s.y2) == s
    decreases |conns|
  {
    if |conns| == 0 then s
    else
      var t := Resnap(s, conns[..|conns| - 1], ids, cs);
      var c := conns[|conns| - 1];
      if c.targetId in ids then WithEndpoint(t, c.endpoint, Scan(EndpointOf(t, c.endpoint), cs).p)
      else t
  }

  /** An endpoint nothing pins stays put; an endpoint pinned once moves to
      the snap of where it was. */
  lemma {:induction false} ResnapEndpoint(s: Shape, conns: seq<Connection>, ids: set<int>, cs: seq<Candidate>, e: Endpoint)
    requires PinCount(conns, ids, e) <= 1
    ensures PinCount(conns, ids, e) == 0 ==> EndpointOf(Resnap(s, conns, ids, cs), e) == EndpointOf(s, e)
    ensures PinCount(conns, ids, e) == 1 ==> EndpointOf(Resnap(s, conns, ids, cs), e) == Scan(EndpointOf(s, e), cs).p
    decreases |conns|
  {
    if |conns| > 0 {
      var pre := conns[..|conns| - 1];
      var c := conns[|conns| - 1];
      ResnapEndpoint(s, pre, ids, cs, e);
      var t := Resnap(s, pre, ids, cs);
      if c.targetId in ids && c.endpoint != e {
        assert EndpointOf(WithEndpoint(t, c.endpoint, Scan(EndpointOf(t, c.endpoint), cs).p), e) == EndpointOf(t, e);
      }
    }
  }

  /** The lines after every line has made its pass; all other shapes are
      untouched. */
  function Follow(ss: seq<Shape>, ids: set<int>, cs: seq<Candidate>): (r: seq<Shape>)
    ensures |r| == |ss|
  {
    seq(|ss|, i requires 0 <= i < |ss| =>
      if IsLineType(ss[i].kind) then Resnap(ss[i], ss[i].connections, ids, cs) else ss[i])
  }

  /** Following changes nothing but connector endpoints: every shape keeps
      all other fields, and the non-connectors (hence the snap candidates)
      are the same. */
  lemma FollowMovesOnlyEndpoints(ss: seq<Shape>, ids: set<int>, cs: seq<Candidate>)
    ensures SameSolids(ss, Follow(ss, ids, cs))
    ensures forall i :: 0 <= i < |ss| ==>
              Follow(ss, ids, cs)[i].(x1 := ss[i].x1, y1 := ss[i].y1, x2 := ss[i].x2, y2 := ss[i].y2) == ss[i]
    ensures forall i :: 0 <= i < |ss| && !IsLineType(ss[i].kind) ==> Follow(ss, ids, cs)[i] == ss[i]
    ensures forall exclude :: Candidates(Follow(ss, ids, cs), exclude) == Candidates(ss, exclude)
  {
    var r := Follow(ss, ids, cs);
    forall i | 0 <= i < |ss| ensures r[i].(x1 := ss[i].x1, y1 := ss[i].y1, x2 := ss[i].x2, y2 := ss[i].y2) == ss[i] {
    }
    forall exclude {
      CandidatesIgnoreLines(ss, r, exclude);
    }
  }

  /** Where each connector endpoint ends up: unchanged when no connection
      pins it, at the snap of its old position when exactly one does. */
  lemma FollowEndpoints(ss: seq<Shape>, ids: set<int>, cs: seq<Candidate>, i: nat, e: Endpoint)
    requires i < |ss| && PinCount(ss[i].connections, ids, e) <= 1
    ensures !IsLineType(ss[i].kind) || PinCount(ss[i].connections, ids, e) == 0 ==>
              EndpointOf(Follow(ss, ids, cs)[i], e) == EndpointOf(ss[i], e)
    ensures IsLineType(ss[i].kind) && PinCount(ss[i].connections, ids, e) == 1 ==>
              EndpointOf(Follow(ss, ids, cs)[i], e) == Scan(EndpointOf(ss[i], e), cs).p
  {
    ResnapEndpoint(ss[i], ss[i].connections, ids, cs, e);
  }

  /** The ids present in a shape list. */
  function IdsOf(ss: seq<Shape>): set<int> {
    set s | s in ss :: s.shapeId
  }

  /** `update_connected_lines`: the connectors pinned to the moved shape's
      id follow it. Only connector corners change, so every non-connector
      stays. */
  function FollowMoved(ss: seq<Shape>, moved: Shape): (r: seq<Shape>)
    ensures |r| == |ss|
    ensures forall i :: 0 <= i < |ss| && !IsLineType(ss[i].kind) ==> r[i] == ss[i]
    ensures forall i :: 0 <= i < |ss| ==> r[i].(x1 := ss[i].x1, y1 := ss[i].y1, x2 := ss[i].x2, y2 := ss[i].y2) == ss[i]
  {
    FollowMovesOnlyEndpoints(ss, {moved.shapeId}, Candidates(ss, None));
    Follow(ss, {moved.shapeId}, Candidates(ss, None))
  }

  /** `rebuild_connections`: every connection whose target exists re-snaps.
      Only connector corners change, so every non-connector stays. */
  function Rebuild(ss: seq<Shape>): (r: seq<Shape>)
    ensures |r| == |ss|
    ensures forall i :: 0 <= i < |ss| && !IsLineType(ss[i].kind) ==> r[i] == ss[i]
    ensures forall i :: 0 <= i < |ss| ==> r[i].(x1 := ss[i].x1, y1 := ss[i].y1, x2 := ss[i].x2, y2 := ss[i].y2) == ss[i]
  {
    FollowMovesOnlyEndpoints(ss, IdsOf(ss), Candidates(ss, None));
    Follow(ss, IdsOf(ss), Candidates(ss, None))
  }

  /** Neither re-snap changes the ids present. */
  lemma FollowKeepsIds(ss: seq<Shape>, ids: set<int>, cs: seq<Candidate>)
    ensures IdsOf(Follow(ss, ids, cs)) == IdsOf(ss)
    ensures UniqueIds(ss) ==> UniqueIds(Follow(ss, ids, cs))
  {
    var r := Follow(ss, ids, cs);
    FollowMovesOnlyEndpoints(ss, ids, cs);
    assert forall i :: 0 <= i < |ss| ==> r[i].shapeId == ss[i].shapeId;
    forall x | x in IdsOf(ss) ensures x in IdsOf(r) {
      var s :| s in ss && s.shapeId == x;
      var i :| 0 <= i < |ss| && ss[i] == s;
      assert r[i] in r;
    }
    forall x | x in IdsOf(r) ensures x in IdsOf(ss) {
      var s :| s in r && s.shapeId == x;
      var i :| 0 <= i < |r| && r[i] == s;
      assert ss[i] in ss;
    }
  }

  // ---------------------------------------------------------------------
  // Re-pinning a dropped endpoint
  // ---------------------------------------------------------------------

  /** The connections that do not pin endpoint e, in their order. */
  function DropEndpoint(conns: seq<Connection>, e: Endpoint): (r: seq<Connection>)
    ensures forall c :: c in r <==> c in conns && c.endpoint != e
    decreases |conns|
  {
    if |conns| == 0 then []
    else
      var last := conns[|conns| - 1];
      DropEndpoint(conns[..|conns| - 1], e) + (if last.endpoint != e then [last] else [])
  }

  /** The release of a dragged endpoint: its old connections go and, when
      it landed on a shape, one connection to that shape's id is added. */
  function Reconnect(conns: seq<Connection>, e: Endpoint, target: Option<int>): (r: seq<Connection>)
    ensures forall c :: c in r <==>
              (c in conns && c.endpoint != e) || (target.Some? && c == Connection(target.value, e))
  {
    var kept := DropEndpoint(conns, e);
    if target.Some? then kept + [Connection(target.value, e)] else kept
  }

  /** How many connections name endpoint e, whatever their target. */
  function EndpointCount(conns: seq<Connection>, e: Endpoint): nat
    decreases |conns|
  {
    if |conns| == 0 then 0
    else EndpointCount(conns[..|conns| - 1], e) + (if conns[|conns| - 1].endpoint == e then 1 else 0)
  }

  lemma {:induction false} DropEndpointCounts(conns: seq<Connection>, e: Endpoint, f: Endpoint)
    ensures EndpointCount(DropEndpoint(conns, e), f) == if f == e then 0 else EndpointCount(conns, f)
    decreases |conns|
  {
    if |conns| > 0 {
      var pre, last := conns[..|conns| - 1], conns[|conns| - 1];
      DropEndpointCounts(pre, e, f);
      var kept := DropEndpoint(pre, e);
      if last.endpoint != e {
        var r := kept + [last];
        assert DropEndpoint(conns, e) == r;
        assert r[..|r| - 1] == kept && r[|r| - 1] == last;
      } else {
        assert DropEndpoint(conns, e) == kept;
      }
    }
  }

  /** After a release the dropped endpoint has exactly one connection, to
      the shape it landed on, or none when it landed on nothing; the other
      endpoint's connections are kept. */
  lemma ReconnectPins(conns: seq<Connection>, e: Endpoint, target: Option<int>, f: Endpoint)
    ensures EndpointCount(Reconnect(conns, e, target), e) == if target.Some? then 1 else 0
    ensures target.Some? ==> Connection(target.value, e) in Reconnect(conns, e, target)
    ensures forall c :: c in Reconnect(conns, e, target) && c.endpoint == e ==> target == Some(c.targetId)
    ensures f != e ==> EndpointCount(Reconnect(conns, e, target), f) == EndpointCount(conns, f)
    ensures forall c :: c in conns && c.endpoint != e ==> c in Reconnect(conns, e, target)
  {
    var kept := DropEndpoint(conns, e);
    DropEndpointCounts(conns, e, e);
    DropEndpointCounts(conns, e, f);
    if target.Some? {
      assert (kept + [Connection(target.value, e)])[..|kept|] == kept;
    }
  }

  /** Each endpoint is pinned by at most one connection. */
  predicate SinglyPinned(conns: seq<Connection>) {
    EndpointCount(conns, Start) <= 1 && EndpointCount(conns, End) <= 1
  }

  lemma {:induction false} PinCountAtMostEndpointCount(conns: seq<Connection>, ids: set<int>, e: Endpoint)
    ensures PinCount(conns, ids, e) <= EndpointCount(conns, e)
    decreases |conns|
  {
    if |conns| > 0 {
      PinCountAtMostEndpointCount(conns[..|conns| - 1], ids, e);
    }
  }

  /** Releasing an endpoint of a singly pinned line keeps it singly pinned,
      so following its targets snaps each endpoint at most once. */
  lemma ReconnectSinglyPinned(conns: seq<Connection>, e: Endpoint, target: Option<int>, ids: set<int>)
    requires SinglyPinned(conns)
    ensures SinglyPinned(Reconnect(conns, e, target))
    ensures PinCount(Reconnect(conns, e, target), ids, Start) <= 1
    ensures PinCount(Reconnect(conns, e, target), ids, End) <= 1
  {
    var r := Reconnect(conns, e, target);
    ReconnectPins(conns, e, target, if e == Start then End else Start);
    PinCountAtMostEndpointCount(r, ids, Start);
    PinCountAtMostEndpointCount(r, ids, End);
  }
}
