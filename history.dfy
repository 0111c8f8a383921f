/** Undo history: snapshots of the shape list in dictionary form, the
    bounded push of `record_state`, and what restoring a snapshot yields. */
module History {
  import opened Support
  import opened Shapes
  import opened ShapeGraph

  /** A recorded state: every shape as `to_dict` writes it, and the id
      counter. */
  datatype Snapshot = Snapshot(shapes: seq<ShapeDict>, nextId: int)

  /** `max_undo`. */
  const MaxUndo: nat := 50

  function Capture(ss: seq<Shape>, nextId: int): (s: Snapshot)
    ensures |s.shapes| == |ss| && s.nextId == nextId
    ensures forall i :: 0 <= i < |ss| ==> s.shapes[i] == ToDict(ss[i])
  {
    Snapshot(seq(|ss|, i requires 0 <= i < |ss| => ToDict(ss[i])), nextId)
  }

  /** `record_state`'s push: append, then drop the oldest entry if the
      stack has grown beyond the cap. A push keeps a capped stack capped,
      ends with the new snapshot, and keeps the newest entries of the old
      stack in order, dropping nothing while below the cap. */
  function Pushed(stack: seq<Snapshot>, s: Snapshot): (r: seq<Snapshot>)
    ensures |r| <= |stack| + 1
    ensures |stack| <= MaxUndo ==>
      && 1 <= |r| <= MaxUndo
      && r[|r| - 1] == s
      && (|stack| < MaxUndo ==> r == stack + [s])
      && (|stack| == MaxUndo ==> r == stack[1..] + [s])
  {
    var grown := stack + [s];
    if |grown| > MaxUndo then grown[1..] else grown
  }

  /** Every dictionary of the snapshot loads. */
  ghost predicate Loadable(s: Snapshot) {
    forall d :: d in s.shapes ==> FromDict(d).Ok?
  }

  lemma CaptureLoadable(ss: seq<Shape>, nextId: int)
    ensures Loadable(Capture(ss, nextId))
  {
    var s := Capture(ss, nextId);
    forall d | d in s.shapes ensures FromDict(d).Ok? {
      var i :| 0 <= i < |s.shapes| && s.shapes[i] == d;
      FromDictToDict(ss[i]);
    }
  }

  /** A snapshot that restores a list the manager could hold: every
      dictionary loads, the counter is at least 1, and the loaded ids are
      positive, distinct and below the counter. */
  ghost predicate Restorable(s: Snapshot) {
    Loadable(s) && s.nextId >= 1 && IdsIssued(Load(s), s.nextId)
  }

  /** Every snapshot of a stack is restorable. */
  ghost predicate AllRestorable(stack: seq<Snapshot>) {
    forall s :: s in stack ==> Restorable(s)
  }

  /** `record_state` on a capped restorable stack and a registered list:
      the stack stays capped and restorable and ends with the new capture. */
  lemma RecordKeeps(stack: seq<Snapshot>, ss: seq<Shape>, nextId: int)
    requires |stack| <= MaxUndo && AllRestorable(stack) && IdsIssued(ss, nextId) && nextId >= 1
    ensures var r := Pushed(stack, Capture(ss, nextId));
      AllRestorable(r) && 1 <= |r| <= MaxUndo && r[|r| - 1] == Capture(ss, nextId)
  {
    CaptureRestorable(ss, nextId);
    PushedRestorable(stack, Capture(ss, nextId));
  }

  /** `undo` and `redo` on restorable stacks and a registered list: the
      popped snapshot restores, the rest of its stack stays restorable, and
      so does the other stack with the current state captured on top. */
  lemma MoveKeeps(from: seq<Snapshot>, to: seq<Snapshot>, ss: seq<Shape>, nextId: int)
    requires from != [] && AllRestorable(from) && AllRestorable(to) && IdsIssued(ss, nextId) && nextId >= 1
    ensures Restorable(from[|from| - 1])
    ensures AllRestorable(from[..|from| - 1])
    ensures AllRestorable(to + [Capture(ss, nextId)])
  {
    CaptureRestorable(ss, nextId);
    assert from[|from| - 1] in from;
    forall t | t in to + [Capture(ss, nextId)] ensures Restorable(t) {
      assert t in to || t == Capture(ss, nextId);
    }
  }

  /** Pushing a restorable snapshot keeps a stack restorable. */
  lemma PushedRestorable(stack: seq<Snapshot>, s: Snapshot)
    requires AllRestorable(stack) && Restorable(s)
    ensures AllRestorable(Pushed(stack, s))
  {
    forall t | t in Pushed(stack, s) ensures Restorable(t) {
      assert t in stack + [s];
    }
  }

  /** `Shape.from_dict` over every recorded dictionary. */
  function Load(s: Snapshot): (ss: seq<Shape>)
    requires Loadable(s)
    ensures |ss| == |s.shapes|
  {
    seq(|s.shapes|, i requires 0 <= i < |s.shapes| => FromDict(s.shapes[i]).value)
  }

  function WithoutCanvasIds(ss: seq<Shape>): (r: seq<Shape>)
    ensures |r| == |ss|
  {
    seq(|ss|, i requires 0 <= i < |ss| => ss[i].(canvasId := None))
  }

  /** Loading a captured state gives back the captured shapes, canvas
      handles cleared. */
  lemma LoadCapture(ss: seq<Shape>, nextId: int)
    ensures Loadable(Capture(ss, nextId))
    ensures Load(Capture(ss, nextId)) == WithoutCanvasIds(ss)
  {
    CaptureLoadable(ss, nextId);
    var s := Capture(ss, nextId);
    forall i | 0 <= i < |ss| ensures Load(s)[i] == ss[i].(canvasId := None) {
      FromDictToDict(ss[i]);
    }
  }

  /** What `add_shape` does to a shape's id: an unregistered shape takes
      the counter's value and the counter moves on; a registered one and
      the counter are left alone; no other field changes. */
  function Register(s: Shape, next: int): (r: (Shape, int))
    ensures r.0 == s.(shapeId := r.0.shapeId)
    ensures s.shapeId == 0 ==> r.0.shapeId == next && r.1 == next + 1
    ensures s.shapeId != 0 ==> r.0 == s && r.1 == next
  {
    if s.shapeId == 0 then (s.(shapeId := next), next + 1) else (s, next)
  }

  /** Registering a list in order. */
  function RegisterAll(ss: seq<Shape>, next: int): (r: (seq<Shape>, int))
    ensures |r.0| == |ss|
    decreases |ss|
  {
    if |ss| == 0 then ([], next)
    else
      var (pre, n) := RegisterAll(ss[..|ss| - 1], next);
      var (s, n') := Register(ss[|ss| - 1], n);
      (pre + [s], n')
  }

  /** Registering one more shape extends the registered list by that
      shape's registration. */
  lemma RegisterAllAppend(ss: seq<Shape>, s: Shape, next: int)
    ensures RegisterAll(ss + [s], next).0 == RegisterAll(ss, next).0 + [Register(s, RegisterAll(ss, next).1).0]
    ensures RegisterAll(ss + [s], next).1 == Register(s, RegisterAll(ss, next).1).1
  {
    assert (ss + [s])[..|ss|] == ss;
  }

  /** Registration changes nothing but zero ids, never moves the counter
      back, and gives each zero id a value from the counter's range. */
  lemma {:induction false} RegisterAllKeeps(ss: seq<Shape>, next: int)
    ensures var (r, n) := RegisterAll(ss, next);
      && n >= next
      && (forall i :: 0 <= i < |ss| ==> r[i] == ss[i].(shapeId := r[i].shapeId))
      && (forall i :: 0 <= i < |ss| && ss[i].shapeId != 0 ==> r[i].shapeId == ss[i].shapeId)
      && (forall i :: 0 <= i < |ss| && ss[i].shapeId == 0 ==> next <= r[i].shapeId < n)
    decreases |ss|
  {
    if |ss| > 0 {
      var pre := ss[..|ss| - 1];
      RegisterAllKeeps(pre, next);
      var (a, m) := RegisterAll(pre, next);
      var (s, n) := Register(ss[|ss| - 1], m);
      var r := a + [s];
      assert RegisterAll(ss, next) == (r, n);
      forall i | 0 <= i < |ss|
        ensures r[i] == ss[i].(shapeId := r[i].shapeId)
        ensures ss[i].shapeId != 0 ==> r[i].shapeId == ss[i].shapeId
        ensures ss[i].shapeId == 0 ==> next <= r[i].shapeId < n
      {
        if i < |pre| {
          assert r[i] == a[i] && ss[i] == pre[i];
        }
      }
    }
  }

  /** The ids handed out follow list order, so no two are equal. */
  lemma {:induction false} RegisterAllFresh(ss: seq<Shape>, next: int)
    ensures var r := RegisterAll(ss, next).0;
      forall i, j :: 0 <= i < j < |ss| && ss[i].shapeId == 0 && ss[j].shapeId == 0 ==>
        r[i].shapeId < r[j].shapeId
    decreases |ss|
  {
    if |ss| > 0 {
      var pre := ss[..|ss| - 1];
      RegisterAllFresh(pre, next);
      RegisterAllKeeps(pre, next);
      var (a, m) := RegisterAll(pre, next);
      var (s, n) := Register(ss[|ss| - 1], m);
      var r := a + [s];
      assert RegisterAll(ss, next).0 == r;
      forall i, j | 0 <= i < j < |ss| && ss[i].shapeId == 0 && ss[j].shapeId == 0
        ensures r[i].shapeId < r[j].shapeId
      {
        assert r[i] == a[i] && ss[i] == pre[i];
        if j < |pre| {
          assert r[j] == a[j] && ss[j] == pre[j];
        }
      }
    }
  }

  /** A list of registered shapes is left as it is. */
  lemma {:induction false} RegisterAllRegistered(ss: seq<Shape>, next: int)
    requires forall i :: 0 <= i < |ss| ==> ss[i].shapeId != 0
    ensures RegisterAll(ss, next) == (ss, next)
    decreases |ss|
  {
    if |ss| > 0 {
      var pre := ss[..|ss| - 1];
      assert forall i :: 0 <= i < |pre| ==> pre[i] == ss[i];
      RegisterAllRegistered(pre, next);
      assert ss == pre + [ss[|ss| - 1]];
    }
  }

  /** `restore_state`: the counter is reset to the snapshot's, every
      dictionary is loaded and registered in order, and then every
      connection is re-snapped. */
  function Restored(s: Snapshot): (r: (seq<Shape>, int))
    requires Loadable(s)
    ensures |r.0| == |s.shapes| && r.1 >= s.nextId
  {
    RegisterAllKeeps(Load(s), s.nextId);
    var (ss, n) := RegisterAll(Load(s), s.nextId);
    (Rebuild(ss), n)
  }

  /** Restoring a captured state of registered shapes gives back those
      shapes (canvas handles cleared, connectors re-snapped) and the same
      counter. */
  lemma RestoreCapture(ss: seq<Shape>, nextId: int)
    requires forall i :: 0 <= i < |ss| ==> ss[i].shapeId != 0
    ensures Loadable(Capture(ss, nextId))
    ensures Restored(Capture(ss, nextId)) == (Rebuild(WithoutCanvasIds(ss)), nextId)
  {
    LoadCapture(ss, nextId);
    RegisterAllRegistered(WithoutCanvasIds(ss), nextId);
  }

  /** A captured list of registered shapes is restorable. */
  lemma CaptureRestorable(ss: seq<Shape>, nextId: int)
    requires IdsIssued(ss, nextId) && nextId >= 1
    ensures Restorable(Capture(ss, nextId))
  {
    LoadCapture(ss, nextId);
    SameIdsIssued(ss, WithoutCanvasIds(ss), nextId);
  }

  /** Restoring a restorable snapshot registers nothing anew: the list is
      the loaded one with its connectors re-snapped, the counter is the
      snapshot's, and the ids are still issued ones. */
  lemma RestoredIssued(s: Snapshot)
    requires Restorable(s)
    ensures Restored(s) == (Rebuild(Load(s)), s.nextId)
    ensures IdsIssued(Restored(s).0, s.nextId)
  {
    var ss := Load(s);
    RegisterAllRegistered(ss, s.nextId);
    SameIdsIssued(ss, Rebuild(ss), s.nextId);
  }
}
