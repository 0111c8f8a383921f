/** The canvas manager: the shape list, the id counter, the selection, the
    clipboard and the undo and redo stacks, with the operations that change
    them. */
module Canvas {
  import opened Support
  import opened Shapes
  import opened SnapEngine
  import opened ShapeGraph
  import opened History

  /** The routing an ortho connector gets when it is flipped: "v_first"
      becomes "h_first" and anything else becomes "v_first". */
  function Flipped(routing: string): (r: string)
    ensures r != routing
    ensures r == VFirst <==> routing != VFirst
    ensures r == HFirst || r == VFirst
  {
    if routing != VFirst then VFirst else HFirst
  }

  /** Flipping twice gives back either of the two routings. */
  lemma FlippedTwice(routing: string)
    requires routing == HFirst || routing == VFirst
    ensures Flipped(Flipped(routing)) == routing
  {
  }

  /** Replacing a shape by one with the same id keeps the ids issued. */
  lemma ReplaceKeepsIds(ss: seq<Shape>, i: nat, t: Shape, next: int)
    requires i < |ss| && t.shapeId == ss[i].shapeId && IdsIssued(ss, next)
    ensures IdsIssued(ss[i := t], next)
  {
    SameIdsIssued(ss, ss[i := t], next);
  }

  /** Removing one element keeps the remaining ids issued. */
  lemma RemovalKeepsIds(ss: seq<Shape>, j: nat, next: int)
    requires j < |ss| && IdsIssued(ss, next)
    ensures IdsIssued(ss[..j] + ss[j + 1..], next)
  {
    var r := ss[..j] + ss[j + 1..];
    assert forall i :: 0 <= i < |r| ==> r[i] == ss[if i < j then i else i + 1];
  }

  /** Appending a shape whose id is positive, below the new counter and
      not yet used keeps the ids issued. */
  lemma AppendKeepsIds(ss: seq<Shape>, t: Shape, next: int, next': int)
    requires IdsIssued(ss, next) && next <= next' && 0 < t.shapeId < next'
    requires forall k :: 0 <= k < |ss| ==> ss[k].shapeId != t.shapeId
    ensures IdsIssued(ss + [t], next')
  {
    var r := ss + [t];
    assert forall i :: 0 <= i < |ss| ==> r[i] == ss[i];
  }

  class CanvasManager {
    var shapes: seq<Shape>
    var nextShapeId: int
    /** The selected shape, as its position in the list. */
    var selected: Option<nat>
    /** The connector endpoint being dragged. */
    var editingEndpoint: Option<Endpoint>
    var clipboard: Option<Shape>
    var undoStack: seq<Snapshot>
    var redoStack: seq<Snapshot>
    /** The pointer position of the last drag step. */
    var dragX: real
    var dragY: real

    /** The selection, the clipboard and the drag position. */
    ghost function Session(): (Option<nat>, Option<Endpoint>, Option<Shape>, real, real)
      reads this
    {
      (selected, editingEndpoint, clipboard, dragX, dragY)
    }

    /** The two stacks together never hold more than `max_undo` states,
        every recorded state restores, and every shape in the list has a
        positive id of its own below the counter. */
    ghost predicate Valid()
      reads this
    {
      && |undoStack| + |redoStack| <= MaxUndo
      && AllRestorable(undoStack)
      && AllRestorable(redoStack)
      && nextShapeId >= 1
      && IdsIssued(shapes, nextShapeId)
      && (selected.Some? ==> selected.value < |shapes|)
    }

    constructor()
      ensures Valid()
      ensures shapes == [] && nextShapeId == 1 && selected == None && editingEndpoint == None
      ensures clipboard == None && undoStack == [] && redoStack == []
      ensures dragX == 0.0 && dragY == 0.0
    {
      shapes := [];
      nextShapeId := 1;
      selected := None;
      editingEndpoint := None;
      clipboard := None;
      undoStack := [];
      redoStack := [];
      dragX, dragY := 0.0, 0.0;
    }

    // -------------------------------------------------------------------
    // Undo / redo
    // -------------------------------------------------------------------

    /** `record_state`: push the current state, capped at `max_undo`, and
        forget the redo history. */
    method RecordState()
      requires Valid()
      modifies this
      ensures Valid()
      ensures undoStack == Pushed(old(undoStack), Capture(old(shapes), old(nextShapeId)))
      ensures redoStack == []
      ensures 1 <= |undoStack| <= MaxUndo && undoStack[|undoStack| - 1] == Capture(shapes, nextShapeId)
      ensures shapes == old(shapes) && nextShapeId == old(nextShapeId)
      ensures selected == old(selected) && editingEndpoint == old(editingEndpoint)
      ensures clipboard == old(clipboard) && dragX == old(dragX) && dragY == old(dragY)
    {
      var state := Capture(shapes, nextShapeId);
      RecordKeeps(undoStack, shapes, nextShapeId);
      undoStack := Pushed(undoStack, state);
      redoStack := [];
    }

    /** `undo`: nothing when there is nothing to undo; otherwise the
        current state goes onto the redo stack and the newest recorded
        state is restored. */
    method Undo()
      requires Valid()
      modifies this
      ensures Valid()
      ensures old(undoStack) == [] ==>
                shapes == old(shapes) && nextShapeId == old(nextShapeId) && selected == old(selected)
                && editingEndpoint == old(editingEndpoint) && undoStack == [] && redoStack == old(redoStack)
      ensures old(undoStack) != [] ==>
                && Loadable(old(undoStack)[|old(undoStack)| - 1])
                && (shapes, nextShapeId) == Restored(old(undoStack)[|old(undoStack)| - 1])
                && undoStack == old(undoStack)[..|old(undoStack)| - 1]
                && redoStack == old(redoStack) + [Capture(old(shapes), old(nextShapeId))]
                && selected == None && editingEndpoint == None
      ensures |undoStack| + |redoStack| == |old(undoStack)| + |old(redoStack)|
      ensures clipboard == old(clipboard) && dragX == old(dragX) && dragY == old(dragY)
    {
      if |undoStack| == 0 {
        return;
      }
      var current := Capture(shapes, nextShapeId);
      MoveKeeps(undoStack, redoStack, shapes, nextShapeId);
      redoStack := redoStack + [current];
      var state := undoStack[|undoStack| - 1];
      undoStack := undoStack[..|undoStack| - 1];
      RestoreState(state);
    }

    /** `redo`: the mirror image of `undo`. */
    method Redo()
      requires Valid()
      modifies this
      ensures Valid()
      ensures old(redoStack) == [] ==>
                shapes == old(shapes) && nextShapeId == old(nextShapeId) && selected == old(selected)
                && editingEndpoint == old(editingEndpoint) && redoStack == [] && undoStack == old(undoStack)
      ensures old(redoStack) != [] ==>
                && Loadable(old(redoStack)[|old(redoStack)| - 1])
                && (shapes, nextShapeId) == Restored(old(redoStack)[|old(redoStack)| - 1])
                && redoStack == old(redoStack)[..|old(redoStack)| - 1]
                && undoStack == old(undoStack) + [Capture(old(shapes), old(nextShapeId))]
                && selected == None && editingEndpoint == None
      ensures |undoStack| + |redoStack| == |old(undoStack)| + |old(redoStack)|
      ensures clipboard == old(clipboard) && dragX == old(dragX) && dragY == old(dragY)
    {
      if |redoStack| == 0 {
        return;
      }
      var current := Capture(shapes, nextShapeId);
      MoveKeeps(redoStack, undoStack, shapes, nextShapeId);
      undoStack := undoStack + [current];
      var state := redoStack[|redoStack| - 1];
      redoStack := redoStack[..|redoStack| - 1];
      RestoreState(state);
    }

    /** `restore_state`: clear without recording, take the snapshot's id
        counter, add every loaded shape without recording, then re-snap
        every connection. */
    method RestoreState(state: Snapshot)
      requires Valid() && Restorable(state)
      modifies this
      ensures Valid()
      ensures (shapes, nextShapeId) == Restored(state)
      ensures selected == None && editingEndpoint == None
      ensures undoStack == old(undoStack) && redoStack == old(redoStack)
      ensures clipboard == old(clipboard) && dragX == old(dragX) && dragY == old(dragY)
    {
      ClearAll(false);
      nextShapeId := state.nextId;
      AddAll(Load(state));
      RebuildConnections();
      RestoredIssued(state);
    }

    /** The loop of `restore_state`: every loaded shape is added, in
        order, without recording. The shapes of a snapshot are registered
        already, so the list becomes exactly the loaded one. */
    method AddAll(loaded: seq<Shape>)
      requires Valid() && shapes == [] && IdsIssued(loaded, nextShapeId)
      modifies this
      ensures Valid()
      ensures (shapes, nextShapeId) == RegisterAll(loaded, old(nextShapeId))
      ensures shapes == loaded && nextShapeId == old(nextShapeId)
      ensures Session() == old(Session())
      ensures undoStack == old(undoStack) && redoStack == old(redoStack)
    {
      var i := 0;
      while i < |loaded|
        invariant 0 <= i <= |loaded|
        invariant Valid()
        invariant shapes == loaded[..i] && nextShapeId == old(nextShapeId)
        invariant Session() == old(Session())
        invariant undoStack == old(undoStack) && redoStack == old(redoStack)
      {
        assert loaded[..i + 1] == loaded[..i] + [loaded[i]];
        AddShape(loaded[i], false);
        i := i + 1;
      }
      assert loaded[..i] == loaded;
      RegisterAllRegistered(loaded, nextShapeId);
    }

    // -------------------------------------------------------------------
    // Shape lifecycle
    // -------------------------------------------------------------------

    /** `add_shape`: an unregistered shape (id 0) takes the next id, the
        shape is appended, and the new state is recorded when asked. A
        shape that has an id already must bring one that is not in use. The
        added shape's id is new to the list. */
    method AddShape(shape: Shape, recordUndo: bool)
      requires Valid()
      requires shape.shapeId != 0 ==>
                 0 < shape.shapeId < nextShapeId && forall k :: 0 <= k < |shapes| ==> shapes[k].shapeId != shape.shapeId
      modifies this
      ensures Valid()
      ensures |shapes| == |old(shapes)| + 1
      ensures forall k :: 0 <= k < |old(shapes)| ==> old(shapes)[k].shapeId != shapes[|shapes| - 1].shapeId
      ensures shape.shapeId == 0 ==>
                shapes == old(shapes) + [shape.(shapeId := old(nextShapeId))] && nextShapeId == old(nextShapeId) + 1
      ensures shape.shapeId != 0 ==> shapes == old(shapes) + [shape] && nextShapeId == old(nextShapeId)
      ensures recordUndo ==> undoStack == Pushed(old(undoStack), Capture(shapes, nextShapeId)) && redoStack == []
      ensures !recordUndo ==> undoStack == old(undoStack) && redoStack == old(redoStack)
      ensures selected == old(selected) && editingEndpoint == old(editingEndpoint)
      ensures clipboard == old(clipboard) && dragX == old(dragX) && dragY == old(dragY)
    {
      var s := shape;
      if s.shapeId == 0 {
        s := s.(shapeId := nextShapeId);
        nextShapeId := nextShapeId + 1;
      }
      AppendKeepsIds(shapes, s, old(nextShapeId), nextShapeId);
      shapes := shapes + [s];
      if recordUndo {
        RecordState();
      }
    }

    /** `clear_selection`, for the fields the manager owns. */
    method ClearSelection()
      modifies this
      ensures selected == None && editingEndpoint == None
      ensures shapes == old(shapes) && nextShapeId == old(nextShapeId)
      ensures undoStack == old(undoStack) && redoStack == old(redoStack)
      ensures clipboard == old(clipboard) && dragX == old(dragX) && dragY == old(dragY)
    {
      selected := None;
      editingEndpoint := None;
    }

    /** `clear_all`: record first if asked and there is something to lose,
        then empty the list and restart the ids at 1. */
    method ClearAll(recordUndo: bool)
      requires Valid()
      modifies this
      ensures Valid()
      ensures shapes == [] && nextShapeId == 1 && selected == None && editingEndpoint == None
      ensures recordUndo && old(shapes) != [] ==>
                undoStack == Pushed(old(undoStack), Capture(old(shapes), old(nextShapeId))) && redoStack == []
      ensures !(recordUndo && old(shapes) != []) ==> undoStack == old(undoStack) && redoStack == old(redoStack)
      ensures clipboard == old(clipboard) && dragX == old(dragX) && dragY == old(dragY)
    {
      if recordUndo && |shapes| > 0 {
        RecordState();
      }
      shapes := [];
      ClearSelection();
      nextShapeId := 1;
    }

    /** `flip_routing`: only ortho connectors are flipped, and the flipped
        state is recorded. */
    method FlipRouting(i: nat)
      requires Valid() && i < |shapes|
      modifies this
      ensures Valid()
      ensures !IsOrtho(old(shapes)[i].kind) ==>
                shapes == old(shapes) && undoStack == old(undoStack) && redoStack == old(redoStack)
      ensures IsOrtho(old(shapes)[i].kind) ==>
                && shapes == old(shapes)[i := old(shapes)[i].(routing := Flipped(old(shapes)[i].routing))]
                && undoStack == Pushed(old(undoStack), Capture(shapes, nextShapeId))
                && redoStack == []
      ensures nextShapeId == old(nextShapeId) && selected == old(selected) && editingEndpoint == old(editingEndpoint)
      ensures clipboard == old(clipboard) && dragX == old(dragX) && dragY == old(dragY)
    {
      var s := shapes[i];
      if !IsOrtho(s.kind) {
        return;
      }
      ReplaceKeepsIds(shapes, i, s.(routing := Flipped(s.routing)), nextShapeId);
      shapes := shapes[i := s.(routing := if s.routing != VFirst then VFirst else HFirst)];
      RecordState();
    }

    /** `delete_shape`: a shape not in the list is ignored; otherwise the
        state is recorded, every connection to the shape's id is dropped,
        the shape is removed and the selection cleared. */
    method DeleteShape(shape: Shape)
      requires Valid()
      modifies this
      ensures Valid()
      ensures shapes == Delete(old(shapes), shape)
      ensures shape !in old(shapes) ==>
                undoStack == old(undoStack) && redoStack == old(redoStack)
                && selected == old(selected) && editingEndpoint == old(editingEndpoint)
      ensures shape in old(shapes) ==>
                && undoStack == Pushed(old(undoStack), Capture(old(shapes), old(nextShapeId)))
                && redoStack == [] && selected == None && editingEndpoint == None
      ensures nextShapeId == old(nextShapeId)
      ensures clipboard == old(clipboard) && dragX == old(dragX) && dragY == old(dragY)
    {
      if shape !in shapes {
        return;
      }
      RecordState();
      DetachConnections(shape.shapeId);
      DeleteUnfolds(old(shapes), shape);
      var j := Find(Detach(shape, shape.shapeId));
      RemoveAt(j);
    }

    /** The end of `delete_shape`: the element at j leaves the list and the
        selection is cleared. */
    method RemoveAt(j: nat)
      requires Valid() && j < |shapes|
      modifies this
      ensures Valid()
      ensures shapes == old(shapes)[..j] + old(shapes)[j + 1..]
      ensures selected == None && editingEndpoint == None
      ensures nextShapeId == old(nextShapeId) && undoStack == old(undoStack) && redoStack == old(redoStack)
      ensures clipboard == old(clipboard) && dragX == old(dragX) && dragY == old(dragY)
    {
      RemovalKeepsIds(shapes, j, nextShapeId);
      shapes := shapes[..j] + shapes[j + 1..];
      ClearSelection();
    }

    /** The loop of `delete_shape` that drops, from every shape, the
        connections whose target is id. */
    method DetachConnections(id: int)
      requires Valid()
      modifies this
      ensures Valid()
      ensures shapes == DetachAll(old(shapes), id)
      ensures nextShapeId == old(nextShapeId) && selected == old(selected) && editingEndpoint == old(editingEndpoint)
      ensures undoStack == old(undoStack) && redoStack == old(redoStack)
      ensures clipboard == old(clipboard) && dragX == old(dragX) && dragY == old(dragY)
    {
      ghost var orig := shapes;
      var k := 0;
      while k < |shapes|
        invariant 0 <= k <= |shapes| == |orig|
        invariant forall m :: 0 <= m < k ==> shapes[m] == Detach(orig[m], id)
        invariant forall m :: k <= m < |shapes| ==> shapes[m] == orig[m]
        invariant IdsIssued(shapes, nextShapeId)
        invariant nextShapeId == old(nextShapeId) && selected == old(selected) && editingEndpoint == old(editingEndpoint)
        invariant undoStack == old(undoStack) && redoStack == old(redoStack)
        invariant clipboard == old(clipboard) && dragX == old(dragX) && dragY == old(dragY)
      {
        var s := shapes[k];
        ReplaceKeepsIds(shapes, k, Detach(s, id), nextShapeId);
        shapes := shapes[k := s.(connections := DropTarget(s.connections, id))];
        k := k + 1;
      }
    }

    /** The search of `list.remove`: the position of the first shape equal
        to x. */
    method Find(x: Shape) returns (j: nat)
      requires x in shapes
      ensures j == IndexOf(shapes, x)
    {
      IndexOfFirst(shapes, x);
      j := 0;
      while shapes[j] != x
        invariant j <= IndexOf(shapes, x)
        decreases IndexOf(shapes, x) - j
      {
        j := j + 1;
      }
    }

    /** `copy_shape`: the clipboard gets a copy of the selected shape. */
    method CopyShape()
      requires Valid()
      modifies this
      ensures Valid()
      ensures selected.Some? ==> clipboard == Some(Copy(shapes[selected.value]))
      ensures selected.None? ==> clipboard == old(clipboard)
      ensures shapes == old(shapes) && nextShapeId == old(nextShapeId) && selected == old(selected)
      ensures editingEndpoint == old(editingEndpoint)
      ensures undoStack == old(undoStack) && redoStack == old(redoStack)
      ensures dragX == old(dragX) && dragY == old(dragY)
    {
      if selected.Some? {
        clipboard := Some(Copy(shapes[selected.value]));
      }
    }

    /** `paste_shape`: a further copy of the clipboard, registered under a
        fresh id and recorded. */
    method PasteShape()
      requires Valid()
      modifies this
      ensures Valid()
      ensures old(clipboard).None? ==>
                shapes == old(shapes) && nextShapeId == old(nextShapeId)
                && undoStack == old(undoStack) && redoStack == old(redoStack)
      ensures old(clipboard).Some? ==>
                && shapes == old(shapes) + [Copy(old(clipboard).value).(shapeId := old(nextShapeId))]
                && nextShapeId == old(nextShapeId) + 1
                && undoStack == Pushed(old(undoStack), Capture(shapes, nextShapeId))
                && redoStack == []
      ensures clipboard == old(clipboard) && selected == old(selected) && editingEndpoint == old(editingEndpoint)
      ensures dragX == old(dragX) && dragY == old(dragY)
    {
      if clipboard.Some? {
        var s := Copy(clipboard.value).(shapeId := 0);
        AddShape(s, true);
      }
    }

    // -------------------------------------------------------------------
    // Connections and snapping
    // -------------------------------------------------------------------

    /** `get_snap_point`: scans the shapes in order and each shape's anchors
        in order, keeping the first anchor strictly closer than anything
        before it and than the snap distance. */
    method GetSnapPoint(q: Point, exclude: Option<Shape>) returns (p: Point, owner: Option<nat>)
      ensures p == FindSnap(q, shapes, exclude).p && owner == FindSnap(q, shapes, exclude).owner
      ensures SnapsTo(q, Candidates(shapes, exclude), p, owner)
      ensures owner.None? ==> p == q
      ensures owner.Some? ==>
                owner.value < |shapes| && Eligible(shapes[owner.value], exclude) && p in Anchors(shapes[owner.value])
    {
      var best := SnapLimit;
      p, owner := q, None;
      assert shapes[..0] == [];
      var i := 0;
      while i < |shapes|
        invariant 0 <= i <= |shapes|
        invariant Snap(p, owner, best) == Scan(q, Candidates(shapes[..i], exclude))
      {
        var s := shapes[i];
        ghost var before := Candidates(shapes[..i], exclude);
        CandidatesAppend(shapes, i, exclude);
        if exclude != Some(s) && !IsLineType(s.kind) {
          assert Candidates(shapes[..i + 1], exclude) == before + Tagged(Anchors(s), i);
          p, owner, best := ScanAnchors(q, Anchors(s), i, before, p, owner, best);
        } else {
          assert Candidates(shapes[..i + 1], exclude) == before + [];
          assert before + [] == before;
        }
        i := i + 1;
      }
      assert shapes[..i] == shapes;
      ScanSpec(q, Candidates(shapes, exclude));
      ScanLands(q, Candidates(shapes, exclude));
    }

    /** The inner loop of `get_snap_point`: the anchors of shape i, in
        order, continue the scan. */
    static method ScanAnchors(q: Point, pts: seq<Point>, i: nat, ghost before: seq<Candidate>,
                              p0: Point, owner0: Option<nat>, best0: real)
      returns (p: Point, owner: Option<nat>, best: real)
      requires Snap(p0, owner0, best0) == Scan(q, before)
      ensures Snap(p, owner, best) == Scan(q, before + Tagged(pts, i))
    {
      p, owner, best := p0, owner0, best0;
      assert pts[..0] == [] && before + Tagged([], i) == before;
      var j := 0;
      while j < |pts|
        invariant 0 <= j <= |pts|
        invariant Snap(p, owner, best) == Scan(q, before + Tagged(pts[..j], i))
      {
        var d := Dist2(q, pts[j]);
        ScanAppend(q, before + Tagged(pts[..j], i), Candidate(pts[j], i));
        TaggedAppend(pts, j, i);
        assert before + Tagged(pts[..j + 1], i) == before + Tagged(pts[..j], i) + [Candidate(pts[j], i)];
        if d < best {
          best := d;
          p, owner := pts[j], Some(i);
        }
        j := j + 1;
      }
      assert pts[..j] == pts;
    }

    /** `get_connection_point`: the snap of the line's endpoint among all
        shapes but the line itself; the target shape it is given plays no
        part. */
    method GetConnectionPoint(line: Shape, e: Endpoint) returns (p: Point)
      ensures p == FindSnap(EndpointOf(line, e), shapes, Some(line)).p
    {
      var owner;
      p, owner := GetSnapPoint(EndpointOf(line, e), Some(line));
    }

    /** The loop shared by `update_connected_lines` and
        `rebuild_connections`: each connector, in list order, re-snaps the
        endpoint of each of its connections whose target is in ids. */
    method ResnapLines(ids: set<int>)
      requires Valid()
      modifies this
      ensures Valid()
      ensures shapes == Follow(old(shapes), ids, Candidates(old(shapes), None))
      ensures nextShapeId == old(nextShapeId) && Session() == old(Session())
      ensures undoStack == old(undoStack) && redoStack == old(redoStack)
    {
      ghost var orig := shapes;
      ghost var cs := Candidates(orig, None);
      ghost var goal := Follow(orig, ids, cs);
      var i := 0;
      while i < |shapes|
        invariant 0 <= i <= |shapes| == |orig|
        invariant forall k :: 0 <= k < i ==> shapes[k] == goal[k]
        invariant forall k :: i <= k < |shapes| ==> shapes[k] == orig[k]
        invariant Candidates(shapes, None) == cs
        invariant Valid()
        invariant nextShapeId == old(nextShapeId) && Session() == old(Session())
        invariant undoStack == old(undoStack) && redoStack == old(redoStack)
      {
        if IsLineType(shapes[i].kind) {
          ResnapConnector(i, ids);
        }
        i := i + 1;
      }
    }

    /** One connector's turn in that loop: each of its connections whose
        target is in ids re-snaps the endpoint it names. */
    method ResnapConnector(i: nat, ids: set<int>)
      requires Valid() && i < |shapes| && IsLineType(shapes[i].kind)
      modifies this
      ensures Valid()
      ensures shapes == old(shapes)[i := Resnap(old(shapes)[i], old(shapes)[i].connections, ids, Candidates(old(shapes), None))]
      ensures Candidates(shapes, None) == Candidates(old(shapes), None)
      ensures nextShapeId == old(nextShapeId) && Session() == old(Session())
      ensures undoStack == old(undoStack) && redoStack == old(redoStack)
    {
      ghost var orig := shapes;
      ghost var cs := Candidates(orig, None);
      var conns := shapes[i].connections;
      var j := 0;
      while j < |conns|
        invariant 0 <= j <= |conns|
        invariant |shapes| == |orig| && IsLineType(shapes[i].kind)
        invariant shapes == orig[i := Resnap(orig[i], conns[..j], ids, cs)]
        invariant Candidates(shapes, None) == cs
        invariant Valid()
        invariant nextShapeId == old(nextShapeId) && Session() == old(Session())
        invariant undoStack == old(undoStack) && redoStack == old(redoStack)
      {
        var c := conns[j];
        assert conns[..j + 1][..j] == conns[..j];
        if c.targetId in ids {
          MoveEndpoint(i, c.endpoint);
        }
        j := j + 1;
      }
      assert conns[..j] == conns;
    }

    /** One re-snap in that loop: the endpoint e of connector i moves to
        its snap among the other shapes. */
    method MoveEndpoint(i: nat, e: Endpoint)
      requires Valid() && i < |shapes| && IsLineType(shapes[i].kind)
      modifies this
      ensures Valid()
      ensures shapes == old(shapes)[i := WithEndpoint(old(shapes)[i], e,
                                          Scan(EndpointOf(old(shapes)[i], e), Candidates(old(shapes), None)).p)]
      ensures Candidates(shapes, None) == Candidates(old(shapes), None)
      ensures nextShapeId == old(nextShapeId) && Session() == old(Session())
      ensures undoStack == old(undoStack) && redoStack == old(redoStack)
    {
      var line := shapes[i];
      CandidatesExcludeLine(shapes, line);
      var p := GetConnectionPoint(line, e);
      ghost var orig := shapes;
      ReplaceKeepsIds(shapes, i, WithEndpoint(line, e, p), nextShapeId);
      shapes := shapes[i := WithEndpoint(line, e, p)];
      assert SameSolids(orig, shapes);
      CandidatesIgnoreLines(orig, shapes, None);
    }

    /** Shape i is updated in place to m (same id) and then
        `update_connected_lines(m)` runs: the drag and settle steps of a
        move. */
    method MoveTo(i: nat, m: Shape)
      requires Valid() && i < |shapes| && m.shapeId == shapes[i].shapeId
      modifies this
      ensures Valid()
      ensures shapes == FollowMoved(old(shapes)[i := m], m)
      ensures nextShapeId == old(nextShapeId) && Session() == old(Session())
      ensures undoStack == old(undoStack) && redoStack == old(redoStack)
    {
      ReplaceKeepsIds(shapes, i, m, nextShapeId);
      shapes := shapes[i := m];
      UpdateConnectedLines(m);
    }

    /** `update_connected_lines`: the connectors pinned to the moved shape's
        id follow it. */
    method UpdateConnectedLines(moved: Shape)
      requires Valid()
      modifies this
      ensures Valid()
      ensures shapes == FollowMoved(old(shapes), moved)
      ensures nextShapeId == old(nextShapeId) && selected == old(selected) && editingEndpoint == old(editingEndpoint)
      ensures undoStack == old(undoStack) && redoStack == old(redoStack)
      ensures clipboard == old(clipboard) && dragX == old(dragX) && dragY == old(dragY)
    {
      ResnapLines({moved.shapeId});
    }

    /** `rebuild_connections`: every connection whose target is present
        re-snaps its endpoint. */
    method RebuildConnections()
      requires Valid()
      modifies this
      ensures Valid()
      ensures shapes == Rebuild(old(shapes))
      ensures nextShapeId == old(nextShapeId) && selected == old(selected) && editingEndpoint == old(editingEndpoint)
      ensures undoStack == old(undoStack) && redoStack == old(redoStack)
      ensures clipboard == old(clipboard) && dragX == old(dragX) && dragY == old(dragY)
    {
      ResnapLines(IdsOf(shapes));
    }
  }
}
