/** The editor's gesture handling: choosing a tool, placing an orthogonal
    connector point by point, and the press, drag and release steps that
    resize, move and re-pin the shapes the canvas manager holds. */
module Editor {
  import opened Support
  import opened Shapes
  import opened SnapEngine
  import opened ShapeGraph
  import opened History
  import opened DrawingRules
  import opened Canvas

  /** The active tool: selection, or drawing one kind of shape. */
  datatype Tool = Select | Draw(kind: ShapeType)

  /** The handle of an ortho connector being dragged: one of its two ends
      or one interior waypoint. */
  datatype WaypointHandle = EndHandle(end: Endpoint) | Interior(index: nat)

  /** The connector `_finalize_ortho_line` builds from the placed points. */
  function OrthoConnector(kind: ShapeType, start: Point, end: Point, waypoints: seq<Point>,
                          color: string, width: int, fill: Option<string>): (s: Shape)
    ensures s.kind == kind && StartOf(s) == start && EndOf(s) == end && s.waypoints == waypoints
    ensures s.routing == HFirst && s.connections == [] && s.shapeId == 0
    ensures s.color == color && s.width == width && s.fillColor == fill
  {
    NewShape(start.x, start.y, end.x, end.y, color, width, kind).(fillColor := fill, waypoints := waypoints)
  }

  /** Where a dragged endpoint goes: the anchor it snaps to among the other
      shapes, or else the pointer itself, on the grid when grid snapping is
      on. */
  function EndDragPoint(q: Point, ss: seq<Shape>, line: Shape, snap: bool, sp: int): (r: Point)
    requires MenuSpacing(sp)
    ensures FindSnap(q, ss, Some(line)).owner.Some? ==>
              && r == FindSnap(q, ss, Some(line)).p
              && exists k :: 0 <= k < |ss| && Eligible(ss[k], Some(line)) && r in Anchors(ss[k])
    ensures FindSnap(q, ss, Some(line)).owner.None? ==> r == SnapPoint(snap, sp, q)
  {
    var st := FindSnap(q, ss, Some(line));
    if st.owner.Some? then st.p else SnapPoint(snap, sp, q)
  }

  /** The id of the shape a released endpoint landed on, if any: the owner
      of the anchor it snaps to among the shapes other than its own line. */
  function LandedOn(q: Point, ss: seq<Shape>, line: Shape): (r: Option<int>)
    ensures r.Some? <==> FindSnap(q, ss, Some(line)).owner.Some?
    ensures r.Some? ==>
              exists k :: 0 <= k < |ss| && ss[k].shapeId == r.value && ss[k] != line && !IsLineType(ss[k].kind)
    ensures r.Some? ==> r.value == ss[FindSnap(q, ss, Some(line)).owner.value].shapeId
  {
    var st := FindSnap(q, ss, Some(line));
    if st.owner.Some? then Some(ss[st.owner.value].shapeId) else None
  }

  /** After a release the line's released endpoint is pinned exactly to
      the shape it landed on, or to nothing, and its other endpoint keeps
      its connections. */
  lemma LandedOnPins(q: Point, ss: seq<Shape>, line: Shape, e: Endpoint)
    ensures var conns := Reconnect(line.connections, e, LandedOn(q, ss, line));
      && EndpointCount(conns, e) == (if FindSnap(q, ss, Some(line)).owner.Some? then 1 else 0)
      && (forall c :: c in conns && c.endpoint == e ==> LandedOn(q, ss, line) == Some(c.targetId))
      && (forall c :: c in line.connections && c.endpoint != e ==> c in conns)
  {
    ReconnectPins(line.connections, e, LandedOn(q, ss, line), e);
  }

  /** The shape list after releasing a move of shape i: with grid snapping
      on, a shape whose first corner is more than 0.1 off the grid on
      either axis moves onto it and its connectors follow. */
  function Settled(ss: seq<Shape>, i: nat, snap: bool, sp: int): (r: seq<Shape>)
    requires i < |ss| && MenuSpacing(sp)
    ensures |r| == |ss|
    ensures var s, g := ss[i], SnapPoint(true, sp, StartOf(ss[i]));
      if snap && (Abs(g.x - s.x1) > 0.1 || Abs(g.y - s.y1) > 0.1) then
        && (!IsLineType(s.kind) ==> r[i] == Moved(s, g.x - s.x1, g.y - s.y1) && StartOf(r[i]) == g)
        && (forall k :: 0 <= k < |ss| && k != i && !IsLineType(ss[k].kind) ==> r[k] == ss[k])
      else r == ss
  {
    var g := SnapPoint(true, sp, StartOf(ss[i]));
    SettledAtMoves(ss, i, snap, g);
    SettledAt(ss, i, snap, g)
  }

  /** `Settled` towards a given grid point `g`. */
  function SettledAt(ss: seq<Shape>, i: nat, snap: bool, g: Point): (r: seq<Shape>)
    requires i < |ss|
    ensures |r| == |ss|
  {
    var s := ss[i];
    var m := Moved(s, g.x - s.x1, g.y - s.y1);
    if snap && (Abs(g.x - s.x1) > 0.1 || Abs(g.y - s.y1) > 0.1) then FollowMoved(ss[i := m], m)
    else ss
  }

  /** When the first corner is more than 0.1 from `g` on either axis, a
      non-connector lands exactly on `g` and no other non-connector moves;
      otherwise nothing changes. */
  lemma SettledAtMoves(ss: seq<Shape>, i: nat, snap: bool, g: Point)
    requires i < |ss|
    ensures var s, r := ss[i], SettledAt(ss, i, snap, g);
      if snap && (Abs(g.x - s.x1) > 0.1 || Abs(g.y - s.y1) > 0.1) then
        && (!IsLineType(s.kind) ==> r[i] == Moved(s, g.x - s.x1, g.y - s.y1) && StartOf(r[i]) == g)
        && (forall k :: 0 <= k < |ss| && k != i && !IsLineType(ss[k].kind) ==> r[k] == ss[k])
      else r == ss
  {
    var s := ss[i];
    var m := Moved(s, g.x - s.x1, g.y - s.y1);
    assert forall k :: 0 <= k < |ss| && k != i ==> ss[i := m][k] == ss[k];
  }

  /** When the first corner is off `g`, settling moves the shape and the
      connectors pinned to it. */
  lemma SettledMoves(ss: seq<Shape>, i: nat, g: Point)
    requires i < |ss| && (Abs(g.x - ss[i].x1) > 0.1 || Abs(g.y - ss[i].y1) > 0.1)
    ensures var m := Moved(ss[i], g.x - ss[i].x1, g.y - ss[i].y1);
      SettledAt(ss, i, true, g) == FollowMoved(ss[i := m], m)
  {
  }

  /** With snapping off, or the first corner already at `g`, settling
      changes nothing. */
  lemma SettledStays(ss: seq<Shape>, i: nat, snap: bool, g: Point)
    requires i < |ss| && (!snap || (Abs(g.x - ss[i].x1) <= 0.1 && Abs(g.y - ss[i].y1) <= 0.1))
    ensures SettledAt(ss, i, snap, g) == ss
  {
  }

  class DrawingApp {
    const manager: CanvasManager
    var currentTool: Tool
    var currentColor: string
    var currentFill: Option<string>
    var lineWidth: int
    var snapToGrid: bool
    var gridSpacing: int
    /** The ortho connector being placed: its first point and the turns
        placed after it. */
    var orthoInProgress: bool
    var orthoStart: Option<Point>
    var orthoWaypoints: seq<Point>
    /** A corner-handle resize in progress, and the box centre it keeps
        for circles and ellipses. */
    var resizing: bool
    var resizeHandle: Option<Handle>
    var resizeCenter: Option<Point>
    var editingWaypoint: Option<WaypointHandle>
    /** Where the press that selected the shape being dragged happened. */
    var dragStart: Option<Point>

    /** The user's drawing settings. */
    ghost function Settings(): (Tool, string, Option<string>, int, bool, int)
      reads this
    {
      (currentTool, currentColor, currentFill, lineWidth, snapToGrid, gridSpacing)
    }

    /** The state of the gesture in progress. */
    ghost function Gesture(): (bool, Option<Point>, seq<Point>, bool, Option<Handle>, Option<Point>,
                               Option<WaypointHandle>, Option<Point>)
      reads this
    {
      (orthoInProgress, orthoStart, orthoWaypoints, resizing, resizeHandle, resizeCenter, editingWaypoint, dragStart)
    }

    /** The connector being placed. */
    ghost function OrthoState(): (bool, Option<Point>, seq<Point>)
      reads this
    {
      (orthoInProgress, orthoStart, orthoWaypoints)
    }

    /** The corner-handle resize in progress. */
    ghost function ResizeState(): (bool, Option<Handle>, Option<Point>)
      reads this
    {
      (resizing, resizeHandle, resizeCenter)
    }

    /** The manager's shapes, id counter and history. */
    ghost function Document(): (seq<Shape>, int, seq<Snapshot>, seq<Snapshot>)
      reads this, manager
    {
      (manager.shapes, manager.nextShapeId, manager.undoStack, manager.redoStack)
    }

    /** A connector is placed only with an ortho tool and always has its
        first point; a resize always knows its handle. */
    ghost predicate Valid()
      reads this, manager
    {
      && manager.Valid()
      && MenuSpacing(gridSpacing)
      && (orthoInProgress ==> orthoStart.Some? && currentTool.Draw? && IsOrtho(currentTool.kind))
      && (resizing ==> resizeHandle.Some?)
    }

    constructor()
      ensures Valid() && fresh(manager)
      ensures Settings() == (Select, "black", Some(""), 2, true, DefaultSpacing)
      ensures Gesture() == (false, None, [], false, None, None, None, None)
      ensures manager.shapes == [] && manager.nextShapeId == 1
      ensures manager.undoStack == [] && manager.redoStack == []
    {
      manager := new CanvasManager();
      currentTool := Select;
      currentColor := "black";
      currentFill := Some("");
      lineWidth := 2;
      snapToGrid := true;
      gridSpacing := DefaultSpacing;
      orthoInProgress := false;
      orthoStart := None;
      orthoWaypoints := [];
      resizing := false;
      resizeHandle := None;
      resizeCenter := None;
      editingWaypoint := None;
      dragStart := None;
    }

    // -------------------------------------------------------------------
    // Tools and ortho drawing
    // -------------------------------------------------------------------

    /** `clear_selection`: the manager's selection and the editor's
        gesture flags. */
    method ClearSelection()
      requires Valid()
      modifies this, manager
      ensures Valid()
      ensures manager.selected == None && manager.editingEndpoint == None
      ensures !resizing && resizeHandle == None && editingWaypoint == None
      ensures manager.shapes == old(manager.shapes) && manager.nextShapeId == old(manager.nextShapeId)
      ensures manager.undoStack == old(manager.undoStack) && manager.redoStack == old(manager.redoStack)
      ensures manager.clipboard == old(manager.clipboard)
      ensures manager.dragX == old(manager.dragX) && manager.dragY == old(manager.dragY)
      ensures Settings() == old(Settings())
      ensures orthoInProgress == old(orthoInProgress) && orthoStart == old(orthoStart)
      ensures orthoWaypoints == old(orthoWaypoints) && resizeCenter == old(resizeCenter) && dragStart == old(dragStart)
    {
      manager.ClearSelection();
      resizing := false;
      resizeHandle := None;
      editingWaypoint := None;
    }

    /** `_cancel_ortho_drawing`. */
    method CancelOrtho()
      requires Valid()
      modifies this
      ensures Valid()
      ensures !orthoInProgress && orthoStart == None && orthoWaypoints == []
      ensures Settings() == old(Settings())
      ensures resizing == old(resizing) && resizeHandle == old(resizeHandle) && resizeCenter == old(resizeCenter)
      ensures editingWaypoint == old(editingWaypoint) && dragStart == old(dragStart)
    {
      orthoInProgress := false;
      orthoStart := None;
      orthoWaypoints := [];
    }

    /** `select_tool`: a connector being placed is abandoned, the selection
        and any resize are cleared, and the tool changes. */
    method SelectTool(tool: Tool)
      requires Valid()
      modifies this, manager
      ensures Valid()
      ensures currentTool == tool && !orthoInProgress
      ensures old(orthoInProgress) ==> orthoStart == None && orthoWaypoints == []
      ensures !old(orthoInProgress) ==> orthoStart == old(orthoStart) && orthoWaypoints == old(orthoWaypoints)
      ensures manager.selected == None && manager.editingEndpoint == None
      ensures !resizing && resizeHandle == None && resizeCenter == None && editingWaypoint == None
      ensures manager.shapes == old(manager.shapes) && manager.nextShapeId == old(manager.nextShapeId)
      ensures manager.undoStack == old(manager.undoStack) && manager.redoStack == old(manager.redoStack)
      ensures currentColor == old(currentColor) && currentFill == old(currentFill) && lineWidth == old(lineWidth)
      ensures snapToGrid == old(snapToGrid) && gridSpacing == old(gridSpacing)
      ensures manager.clipboard == old(manager.clipboard)
      ensures manager.dragX == old(manager.dragX) && manager.dragY == old(manager.dragY) && dragStart == old(dragStart)
    {
      if orthoInProgress {
        CancelOrtho();
      }
      currentTool := tool;
      ClearSelection();
      resizeCenter := None;
    }

    /** `deselect_all` (the Escape key): a connector being placed is
        abandoned; otherwise the selection is cleared. */
    method DeselectAll()
      requires Valid()
      modifies this, manager
      ensures Valid() && !orthoInProgress
      ensures old(orthoInProgress) ==>
                && orthoStart == None && orthoWaypoints == []
                && manager.Session() == old(manager.Session())
                && resizing == old(resizing) && resizeHandle == old(resizeHandle)
                && editingWaypoint == old(editingWaypoint)
      ensures !old(orthoInProgress) ==>
                && OrthoState() == old(OrthoState())
                && manager.selected == None && manager.editingEndpoint == None
                && !resizing && resizeHandle == None && editingWaypoint == None
                && manager.clipboard == old(manager.clipboard)
                && manager.dragX == old(manager.dragX) && manager.dragY == old(manager.dragY)
      ensures Document() == old(Document()) && Settings() == old(Settings())
      ensures resizeCenter == old(resizeCenter) && dragStart == old(dragStart)
    {
      if orthoInProgress {
        CancelOrtho();
        return;
      }
      ClearSelection();
    }

    /** A press with an ortho tool: the first places the start point, each
        later one a turn; both on the grid when grid snapping is on. */
    method OrthoPress(x: real, y: real)
      requires Valid() && currentTool.Draw? && IsOrtho(currentTool.kind)
      modifies this
      ensures Valid() && orthoInProgress
      ensures var p := SnapPoint(snapToGrid, gridSpacing, Point(x, y));
        if old(orthoInProgress) then orthoStart == old(orthoStart) && orthoWaypoints == old(orthoWaypoints) + [p]
        else orthoStart == Some(p) && orthoWaypoints == []
      ensures Settings() == old(Settings())
      ensures resizing == old(resizing) && resizeHandle == old(resizeHandle) && resizeCenter == old(resizeCenter)
      ensures editingWaypoint == old(editingWaypoint) && dragStart == old(dragStart)
    {
      var p := SnapPoint(snapToGrid, gridSpacing, Point(x, y));
      if !orthoInProgress {
        orthoInProgress := true;
        orthoStart := Some(p);
        orthoWaypoints := [];
      } else {
        orthoWaypoints := orthoWaypoints + [p];
      }
    }

    /** `_finalize_ortho_line`: placing ends; unless the connector is too
        small (no turns and under 3 units on both axes) it is added, with
        horizontal-first routing, and recorded. */
    method FinalizeOrthoLine(end: Point)
      requires Valid() && orthoInProgress
      modifies this, manager
      ensures Valid()
      ensures !orthoInProgress && orthoStart == None && orthoWaypoints == []
      ensures OrthoTooSmall(old(orthoStart).value, end, old(orthoWaypoints)) ==>
                && manager.shapes == old(manager.shapes) && manager.nextShapeId == old(manager.nextShapeId)
                && manager.undoStack == old(manager.undoStack) && manager.redoStack == old(manager.redoStack)
      ensures !OrthoTooSmall(old(orthoStart).value, end, old(orthoWaypoints)) ==>
                && manager.shapes == old(manager.shapes) +
                     [OrthoConnector(old(currentTool).kind, old(orthoStart).value, end, old(orthoWaypoints),
                                     currentColor, lineWidth, currentFill).(shapeId := old(manager.nextShapeId))]
                && manager.nextShapeId == old(manager.nextShapeId) + 1
                && manager.undoStack == Pushed(old(manager.undoStack), Capture(manager.shapes, manager.nextShapeId))
                && manager.redoStack == []
      ensures manager.Session() == old(manager.Session()) && Settings() == old(Settings())
      ensures resizing == old(resizing) && resizeHandle == old(resizeHandle) && resizeCenter == old(resizeCenter)
      ensures editingWaypoint == old(editingWaypoint) && dragStart == old(dragStart)
    {
      var start := orthoStart.value;
      var waypoints := orthoWaypoints;
      orthoInProgress := false;
      orthoStart := None;
      orthoWaypoints := [];
      if OrthoTooSmall(start, end, waypoints) {
        return;
      }
      var shape := OrthoConnector(currentTool.kind, start, end, waypoints, currentColor, lineWidth, currentFill);
      manager.AddShape(shape, true);
    }

    /** `_finish_ortho_if_active` (the Enter key): the last turn becomes
        the end point; with no turns placed the connector is abandoned. */
    method FinishOrthoIfActive()
      requires Valid()
      modifies this, manager
      ensures Valid() && !orthoInProgress
      ensures !old(orthoInProgress) ==> Gesture() == old(Gesture()) && Document() == old(Document())
      ensures old(orthoInProgress) ==> orthoStart == None && orthoWaypoints == []
      ensures old(orthoInProgress) && old(orthoWaypoints) == [] ==> Document() == old(Document())
      ensures old(orthoInProgress) && old(orthoWaypoints) != [] ==>
                var start, wps := old(orthoStart).value, old(orthoWaypoints);
                var end, turns := wps[|wps| - 1], wps[..|wps| - 1];
                && (OrthoTooSmall(start, end, turns) ==> Document() == old(Document()))
                && (!OrthoTooSmall(start, end, turns) ==>
                      && manager.shapes == old(manager.shapes) +
                           [OrthoConnector(old(currentTool).kind, start, end, turns,
                                           currentColor, lineWidth, currentFill).(shapeId := old(manager.nextShapeId))]
                      && manager.nextShapeId == old(manager.nextShapeId) + 1
                      && manager.undoStack == Pushed(old(manager.undoStack), Capture(manager.shapes, manager.nextShapeId))
                      && manager.redoStack == [])
      ensures manager.Session() == old(manager.Session()) && Settings() == old(Settings())
      ensures ResizeState() == old(ResizeState()) && editingWaypoint == old(editingWaypoint) && dragStart == old(dragStart)
    {
      if !orthoInProgress {
        return;
      }
      if |orthoWaypoints| > 0 {
        var last := orthoWaypoints[|orthoWaypoints| - 1];
        orthoWaypoints := orthoWaypoints[..|orthoWaypoints| - 1];
        FinalizeOrthoLine(last);
      } else if orthoStart.Some? {
        CancelOrtho();
      }
    }

    // -------------------------------------------------------------------
    // Presses
    // -------------------------------------------------------------------

    /** A press with a drawing tool other than text: the drag starts at the
        press point, on the grid when grid snapping is on. */
    method PressDraw(x: real, y: real)
      requires Valid() && currentTool.Draw? && !IsOrtho(currentTool.kind) && currentTool.kind != Text
      modifies this, manager
      ensures Valid()
      ensures Point(manager.dragX, manager.dragY) == SnapPoint(snapToGrid, gridSpacing, Point(x, y))
      ensures dragStart == None
      ensures Document() == old(Document()) && manager.selected == old(manager.selected)
      ensures manager.editingEndpoint == old(manager.editingEndpoint) && manager.clipboard == old(manager.clipboard)
      ensures Settings() == old(Settings()) && OrthoState() == old(OrthoState())
      ensures ResizeState() == old(ResizeState()) && editingWaypoint == old(editingWaypoint)
    {
      var p := SnapPoint(snapToGrid, gridSpacing, Point(x, y));
      manager.dragX, manager.dragY := p.x, p.y;
      dragStart := None;
    }

    /** A select press on a resize handle of the selection: the resize
        begins, keeping the box centre of a circle or ellipse. */
    method PressResizeHandle(h: Handle, x: real, y: real)
      requires Valid() && currentTool == Select
      modifies this, manager
      ensures Valid()
      ensures resizing && resizeHandle == Some(h) && dragStart == None
      ensures manager.dragX == x && manager.dragY == y
      ensures var sel := manager.selected;
        if sel.Some? && (manager.shapes[sel.value].kind == Circle || manager.shapes[sel.value].kind == Ellipse)
        then resizeCenter == Some(Point((manager.shapes[sel.value].x1 + manager.shapes[sel.value].x2) / 2.0,
                                        (manager.shapes[sel.value].y1 + manager.shapes[sel.value].y2) / 2.0))
        else resizeCenter == None
      ensures Document() == old(Document()) && manager.selected == old(manager.selected)
      ensures manager.editingEndpoint == old(manager.editingEndpoint) && manager.clipboard == old(manager.clipboard)
      ensures Settings() == old(Settings()) && OrthoState() == old(OrthoState())
      ensures editingWaypoint == old(editingWaypoint)
    {
      resizing := true;
      resizeHandle := Some(h);
      manager.dragX, manager.dragY := x, y;
      dragStart := None;
      var sel := manager.selected;
      if sel.Some? && (manager.shapes[sel.value].kind == Circle || manager.shapes[sel.value].kind == Ellipse) {
        var s := manager.shapes[sel.value];
        resizeCenter := Some(Point((s.x1 + s.x2) / 2.0, (s.y1 + s.y2) / 2.0));
      } else {
        resizeCenter := None;
      }
    }

    /** A select press on an ortho connector's end or turn handle. */
    method PressWaypointHandle(w: WaypointHandle, x: real, y: real)
      requires Valid() && currentTool == Select
      modifies this, manager
      ensures Valid()
      ensures editingWaypoint == Some(w) && dragStart == None
      ensures manager.dragX == x && manager.dragY == y
      ensures Document() == old(Document()) && manager.selected == old(manager.selected)
      ensures manager.editingEndpoint == old(manager.editingEndpoint) && manager.clipboard == old(manager.clipboard)
      ensures Settings() == old(Settings()) && OrthoState() == old(OrthoState())
      ensures ResizeState() == old(ResizeState())
    {
      editingWaypoint := Some(w);
      manager.dragX, manager.dragY := x, y;
      dragStart := None;
    }

    /** A select press on a straight connector's end handle. */
    method PressEndpointHandle(e: Endpoint, x: real, y: real)
      requires Valid() && currentTool == Select
      modifies this, manager
      ensures Valid()
      ensures manager.editingEndpoint == Some(e) && dragStart == None
      ensures manager.dragX == x && manager.dragY == y
      ensures Document() == old(Document()) && manager.selected == old(manager.selected)
      ensures manager.clipboard == old(manager.clipboard)
      ensures Settings() == old(Settings()) && OrthoState() == old(OrthoState())
      ensures ResizeState() == old(ResizeState()) && editingWaypoint == old(editingWaypoint)
    {
      manager.editingEndpoint := Some(e);
      manager.dragX, manager.dragY := x, y;
      dragStart := None;
    }

    /** A select press anywhere else: `handle_selection` clears the
        selection and selects the shape hit, if any (hit testing is the
        canvas's and arrives as `hit`); a selection drag remembers where it
        started. */
    method PressSelect(hit: Option<nat>, x: real, y: real)
      requires Valid() && currentTool == Select
      requires hit.Some? ==> hit.value < |manager.shapes|
      modifies this, manager
      ensures Valid()
      ensures manager.selected == hit && manager.editingEndpoint == None
      ensures !resizing && resizeHandle == None && editingWaypoint == None
      ensures hit.Some? ==> manager.dragX == x && manager.dragY == y && dragStart == Some(Point(x, y))
      ensures hit.None? ==>
                manager.dragX == old(manager.dragX) && manager.dragY == old(manager.dragY) && dragStart == old(dragStart)
      ensures Document() == old(Document()) && manager.clipboard == old(manager.clipboard)
      ensures Settings() == old(Settings()) && OrthoState() == old(OrthoState())
      ensures resizeCenter == old(resizeCenter)
    {
      ClearSelection();
      manager.selected := hit;
      if hit.Some? {
        manager.dragX, manager.dragY := x, y;
        dragStart := Some(Point(x, y));
      }
    }

    // -------------------------------------------------------------------
    // Drags with the select tool
    // -------------------------------------------------------------------

    /** The resize branch: the selection is reshaped through its handle
        towards the pointer (on the grid when grid snapping is on); a
        circle takes `dist`, the pointer's distance from the kept centre. */
    method DragResize(x: real, y: real, dist: real)
      requires Valid() && currentTool == Select && resizing && manager.selected.Some?
      requires var s := manager.shapes[manager.selected.value];
        s.kind == Circle || s.kind == Ellipse ==> resizeCenter.Some?
      requires var s, p := manager.shapes[manager.selected.value], SnapPoint(snapToGrid, gridSpacing, Point(x, y));
        s.kind == Circle ==>
          dist >= 0.0 && dist * dist == (p.x - resizeCenter.value.x) * (p.x - resizeCenter.value.x)
                                      + (p.y - resizeCenter.value.y) * (p.y - resizeCenter.value.y)
      modifies manager
      ensures Valid()
      ensures var i, p := old(manager.selected).value, SnapPoint(snapToGrid, gridSpacing, Point(x, y));
        var center := if resizeCenter.Some? then resizeCenter.value else p;
        manager.shapes == old(manager.shapes)[i := Resize(old(manager.shapes)[i], resizeHandle.value, p, center, dist)]
      ensures manager.nextShapeId == old(manager.nextShapeId) && manager.Session() == old(manager.Session())
      ensures manager.undoStack == old(manager.undoStack) && manager.redoStack == old(manager.redoStack)
    {
      var i := manager.selected.value;
      var p := SnapPoint(snapToGrid, gridSpacing, Point(x, y));
      var center := if resizeCenter.Some? then resizeCenter.value else p;
      var r := Resize(manager.shapes[i], resizeHandle.value, p, center, dist);
      ReplaceKeepsIds(manager.shapes, i, r, manager.nextShapeId);
      manager.shapes := manager.shapes[i := r];
    }

    /** Dragging an end of connector i: it goes to the anchor it snaps to
        among the other shapes, or else to the (grid-snapped) pointer. */
    method DragEnd(i: nat, e: Endpoint, x: real, y: real)
      requires Valid() && i < |manager.shapes|
      modifies manager
      ensures Valid()
      ensures manager.shapes == old(manager.shapes)[i := WithEndpoint(old(manager.shapes)[i], e,
                EndDragPoint(Point(x, y), old(manager.shapes), old(manager.shapes)[i], snapToGrid, gridSpacing))]
      ensures manager.nextShapeId == old(manager.nextShapeId) && manager.Session() == old(manager.Session())
      ensures manager.undoStack == old(manager.undoStack) && manager.redoStack == old(manager.redoStack)
    {
      var line := manager.shapes[i];
      var p, owner := manager.GetSnapPoint(Point(x, y), Some(line));
      if owner.None? && snapToGrid {
        p := SnapPoint(snapToGrid, gridSpacing, Point(x, y));
      }
      ReplaceKeepsIds(manager.shapes, i, WithEndpoint(line, e, p), manager.nextShapeId);
      manager.shapes := manager.shapes[i := WithEndpoint(line, e, p)];
    }

    /** The ortho-handle branch: an end handle drags like a connector end,
        a turn moves to the (grid-snapped) pointer. */
    method DragWaypoint(x: real, y: real)
      requires Valid() && currentTool == Select && !resizing
      requires editingWaypoint.Some? && manager.selected.Some?
      requires editingWaypoint.value.Interior? ==>
                 editingWaypoint.value.index < |manager.shapes[manager.selected.value].waypoints|
      modifies manager
      ensures Valid()
      ensures var i, s := old(manager.selected).value, old(manager.shapes)[old(manager.selected).value];
        match editingWaypoint.value
        case EndHandle(e) =>
          manager.shapes == old(manager.shapes)[i := WithEndpoint(s, e,
            EndDragPoint(Point(x, y), old(manager.shapes), s, snapToGrid, gridSpacing))]
        case Interior(k) =>
          manager.shapes == old(manager.shapes)[i := s.(waypoints := s.waypoints[k := SnapPoint(snapToGrid, gridSpacing, Point(x, y))])]
      ensures manager.nextShapeId == old(manager.nextShapeId) && manager.Session() == old(manager.Session())
      ensures manager.undoStack == old(manager.undoStack) && manager.redoStack == old(manager.redoStack)
    {
      var i := manager.selected.value;
      match editingWaypoint.value {
        case EndHandle(e) =>
          DragEnd(i, e, x, y);
        case Interior(k) =>
          var s := manager.shapes[i];
          var t := s.(waypoints := s.waypoints[k := SnapPoint(snapToGrid, gridSpacing, Point(x, y))]);
          ReplaceKeepsIds(manager.shapes, i, t, manager.nextShapeId);
          manager.shapes := manager.shapes[i := t];
      }
    }

    /** The endpoint branch: the selected connector's edited end follows
        the pointer. */
    method DragEndpoint(x: real, y: real)
      requires Valid() && currentTool == Select && !resizing && editingWaypoint.None?
      requires manager.editingEndpoint.Some? && manager.selected.Some?
      modifies manager
      ensures Valid()
      ensures var i, s := old(manager.selected).value, old(manager.shapes)[old(manager.selected).value];
        manager.shapes == old(manager.shapes)[i := WithEndpoint(s, old(manager.editingEndpoint).value,
          EndDragPoint(Point(x, y), old(manager.shapes), s, snapToGrid, gridSpacing))]
      ensures manager.nextShapeId == old(manager.nextShapeId) && manager.Session() == old(manager.Session())
      ensures manager.undoStack == old(manager.undoStack) && manager.redoStack == old(manager.redoStack)
    {
      DragEnd(manager.selected.value, manager.editingEndpoint.value, x, y);
    }

    /** The move branch: the selection moves by the pointer's step since
        the last drag event, the connectors pinned to it follow, and the
        step's end becomes the new drag position. */
    method DragMove(x: real, y: real)
      requires Valid() && currentTool == Select && !resizing && editingWaypoint.None?
      requires manager.editingEndpoint.None? && manager.selected.Some?
      modifies manager
      ensures Valid()
      ensures var i := old(manager.selected).value;
        var m := Moved(old(manager.shapes)[i], x - old(manager.dragX), y - old(manager.dragY));
        && manager.shapes == FollowMoved(old(manager.shapes)[i := m], m)
        && (!IsLineType(m.kind) ==> manager.shapes[i] == m)
      ensures manager.dragX == x && manager.dragY == y
      ensures manager.selected == old(manager.selected) && manager.nextShapeId == old(manager.nextShapeId)
      ensures manager.editingEndpoint == old(manager.editingEndpoint) && manager.clipboard == old(manager.clipboard)
      ensures manager.undoStack == old(manager.undoStack) && manager.redoStack == old(manager.redoStack)
    {
      var i := manager.selected.value;
      var m := Moved(manager.shapes[i], x - manager.dragX, y - manager.dragY);
      manager.MoveTo(i, m);
      assert !IsLineType(m.kind) ==> Follow(old(manager.shapes)[i := m], {m.shapeId}, Candidates(old(manager.shapes)[i := m], None))[i] == m;
      manager.dragX, manager.dragY := x, y;
    }

    // -------------------------------------------------------------------
    // Releases
    // -------------------------------------------------------------------

    /** Re-pinning end e of connector i at q: its connections for that end
        are replaced by one to the shape q snaps to, if any. */
    method Repin(i: nat, e: Endpoint, q: Point)
      requires Valid() && i < |manager.shapes|
      modifies manager
      ensures Valid()
      ensures var s := old(manager.shapes)[i];
        manager.shapes == old(manager.shapes)[i := s.(connections :=
          Reconnect(s.connections, e, LandedOn(q, old(manager.shapes), s)))]
      ensures manager.nextShapeId == old(manager.nextShapeId) && manager.Session() == old(manager.Session())
      ensures manager.undoStack == old(manager.undoStack) && manager.redoStack == old(manager.redoStack)
    {
      var s := manager.shapes[i];
      var p, owner := manager.GetSnapPoint(q, Some(s));
      var target := if owner.Some? then Some(manager.shapes[owner.value].shapeId) else None;
      var t := s.(connections := Reconnect(s.connections, e, target));
      ReplaceKeepsIds(manager.shapes, i, t, manager.nextShapeId);
      manager.shapes := manager.shapes[i := t];
    }

    /** Releasing a resize: it ends and the result is recorded. */
    method ReleaseResize()
      requires Valid() && currentTool == Select && resizing
      modifies this, manager
      ensures Valid()
      ensures !resizing && resizeHandle == None && resizeCenter == None
      ensures manager.shapes == old(manager.shapes) && manager.nextShapeId == old(manager.nextShapeId)
      ensures manager.undoStack == Pushed(old(manager.undoStack), Capture(manager.shapes, manager.nextShapeId))
      ensures manager.redoStack == []
      ensures manager.Session() == old(manager.Session()) && Settings() == old(Settings())
      ensures OrthoState() == old(OrthoState()) && editingWaypoint == old(editingWaypoint) && dragStart == old(dragStart)
    {
      manager.RecordState();
      resizing := false;
      resizeHandle := None;
      resizeCenter := None;
    }

    /** Releasing an ortho handle: an end handle of the selection is
        re-pinned where it now is; then the edit ends and is recorded. */
    method ReleaseWaypoint()
      requires Valid() && currentTool == Select && !resizing && editingWaypoint.Some?
      modifies this, manager
      ensures Valid()
      ensures editingWaypoint == None
      ensures var w, sel := old(editingWaypoint).value, old(manager.selected);
        if w.EndHandle? && sel.Some? then
          var s := old(manager.shapes)[sel.value];
          manager.shapes == old(manager.shapes)[sel.value := s.(connections :=
            Reconnect(s.connections, w.end, LandedOn(EndpointOf(s, w.end), old(manager.shapes), s)))]
        else manager.shapes == old(manager.shapes)
      ensures manager.nextShapeId == old(manager.nextShapeId)
      ensures manager.undoStack == Pushed(old(manager.undoStack), Capture(manager.shapes, manager.nextShapeId))
      ensures manager.redoStack == []
      ensures manager.Session() == old(manager.Session()) && Settings() == old(Settings())
      ensures OrthoState() == old(OrthoState()) && ResizeState() == old(ResizeState()) && dragStart == old(dragStart)
    {
      var sel := manager.selected;
      match editingWaypoint.value {
        case EndHandle(e) =>
          if sel.Some? {
            Repin(sel.value, e, EndpointOf(manager.shapes[sel.value], e));
          }
        case Interior(_) =>
      }
      editingWaypoint := None;
      manager.RecordState();
    }

    /** Releasing a straight connector's edited end: it is re-pinned to the
        shape under the pointer, if any; then the edit ends and is
        recorded. */
    method ReleaseEndpoint(x: real, y: real)
      requires Valid() && currentTool == Select && !resizing && editingWaypoint.None?
      requires manager.editingEndpoint.Some? && manager.selected.Some?
      modifies manager
      ensures Valid()
      ensures manager.editingEndpoint == None
      ensures var i, s := old(manager.selected).value, old(manager.shapes)[old(manager.selected).value];
        manager.shapes == old(manager.shapes)[i := s.(connections := Reconnect(s.connections,
          old(manager.editingEndpoint).value, LandedOn(Point(x, y), old(manager.shapes), s)))]
      ensures manager.nextShapeId == old(manager.nextShapeId)
      ensures manager.undoStack == Pushed(old(manager.undoStack), Capture(manager.shapes, manager.nextShapeId))
      ensures manager.redoStack == []
      ensures manager.selected == old(manager.selected) && manager.clipboard == old(manager.clipboard)
      ensures manager.dragX == old(manager.dragX) && manager.dragY == old(manager.dragY)
      ensures Settings() == old(Settings()) && Gesture() == old(Gesture())
    {
      Repin(manager.selected.value, manager.editingEndpoint.value, Point(x, y));
      manager.editingEndpoint := None;
      manager.RecordState();
    }

    /** The settling step of releasing a move: with grid snapping on, a
        shape whose first corner is more than 0.1 off the grid on either
        axis moves onto it and its connectors follow. */
    method Settle(i: nat)
      requires Valid() && i < |manager.shapes|
      modifies manager
      ensures Valid()
      ensures manager.shapes == Settled(old(manager.shapes), i, snapToGrid, gridSpacing)
      ensures manager.nextShapeId == old(manager.nextShapeId) && manager.Session() == old(manager.Session())
      ensures manager.undoStack == old(manager.undoStack) && manager.redoStack == old(manager.redoStack)
    {
      var g := SnapPoint(true, gridSpacing, StartOf(manager.shapes[i]));
      if snapToGrid {
        MoveStartTo(i, g);
      } else {
        SettledStays(manager.shapes, i, false, g);
      }
    }

    /** The snapping half of `Settle`, towards the grid point `g`. */
    method MoveStartTo(i: nat, g: Point)
      requires manager.Valid() && i < |manager.shapes|
      modifies manager
      ensures manager.Valid()
      ensures manager.shapes == SettledAt(old(manager.shapes), i, true, g)
      ensures manager.nextShapeId == old(manager.nextShapeId) && manager.Session() == old(manager.Session())
      ensures manager.undoStack == old(manager.undoStack) && manager.redoStack == old(manager.redoStack)
    {
      ghost var ss := manager.shapes;
      var s := manager.shapes[i];
      var m := Moved(s, g.x - s.x1, g.y - s.y1);
      if Abs(g.x - s.x1) > 0.1 || Abs(g.y - s.y1) > 0.1 {
        manager.MoveTo(i, m);
        SettledMoves(ss, i, g);
      } else {
        SettledStays(ss, i, true, g);
      }
    }

    /** Releasing a move: a drag of more than 2 units from the press
        settles the shape on the grid and is recorded; a smaller one
        changes nothing. */
    method ReleaseMove(x: real, y: real)
      requires Valid() && currentTool == Select && !resizing && editingWaypoint.None?
      requires manager.editingEndpoint.None? && manager.selected.Some?
      modifies manager
      ensures Valid()
      ensures var start := if dragStart.Some? then dragStart.value else Point(x, y);
        if Abs(x - start.x) > 2.0 || Abs(y - start.y) > 2.0 then
          && manager.shapes == Settled(old(manager.shapes), old(manager.selected).value, snapToGrid, gridSpacing)
          && manager.undoStack == Pushed(old(manager.undoStack), Capture(manager.shapes, manager.nextShapeId))
          && manager.redoStack == []
        else Document() == old(Document())
      ensures manager.nextShapeId == old(manager.nextShapeId) && manager.Session() == old(manager.Session())
      ensures Settings() == old(Settings()) && Gesture() == old(Gesture())
    {
      var start := if dragStart.Some? then dragStart.value else Point(x, y);
      if Abs(x - start.x) > 2.0 || Abs(y - start.y) > 2.0 {
        Settle(manager.selected.value);
        manager.RecordState();
      }
    }

    /** Releasing a drawing drag (any tool but select and text, and not
        while a connector is being placed): the shape `create_shape` builds
        from the press point to the (grid-snapped) release point is added
        and recorded; a tiny drag adds nothing. A circle takes `radius`,
        the drag's length. */
    method ReleaseDraw(x: real, y: real, radius: real)
      requires Valid() && currentTool.Draw? && currentTool.kind != Text && !orthoInProgress
      requires var p := SnapPoint(snapToGrid, gridSpacing, Point(x, y));
        currentTool.kind == Circle ==>
          radius >= 0.0 && radius * radius == (p.x - manager.dragX) * (p.x - manager.dragX)
                                            + (p.y - manager.dragY) * (p.y - manager.dragY)
      modifies manager
      ensures Valid()
      ensures manager.Session() == old(manager.Session())
      ensures var p := SnapPoint(snapToGrid, gridSpacing, Point(x, y));
        var made := CreateShape(currentTool.kind, manager.dragX, manager.dragY, p.x, p.y, radius,
                                currentColor, lineWidth, currentFill);
        if made.Some? then
          && manager.shapes == old(manager.shapes) + [made.value.(shapeId := old(manager.nextShapeId))]
          && manager.nextShapeId == old(manager.nextShapeId) + 1
          && manager.undoStack == Pushed(old(manager.undoStack), Capture(manager.shapes, manager.nextShapeId))
          && manager.redoStack == []
        else Document() == old(Document())
      ensures Settings() == old(Settings()) && Gesture() == old(Gesture())
    {
      var p := SnapPoint(snapToGrid, gridSpacing, Point(x, y));
      var made := CreateShape(currentTool.kind, manager.dragX, manager.dragY, p.x, p.y, radius,
                              currentColor, lineWidth, currentFill);
      if made.Some? {
        manager.AddShape(made.value, true);
      }
    }

    // -------------------------------------------------------------------
    // Commands that clear the selection
    // -------------------------------------------------------------------

    /** `undo` as the menu, the toolbar and Ctrl+Z reach it: when there is
        something to undo, restoring it clears the selection, and with it
        any resize or ortho-handle edit. */
    method Undo()
      requires Valid()
      modifies this, manager
      ensures Valid()
      ensures old(manager.undoStack) == [] ==>
                Document() == old(Document()) && manager.Session() == old(manager.Session()) && Gesture() == old(Gesture())
      ensures old(manager.undoStack) != [] ==>
                && Loadable(old(manager.undoStack)[|old(manager.undoStack)| - 1])
                && (manager.shapes, manager.nextShapeId) == Restored(old(manager.undoStack)[|old(manager.undoStack)| - 1])
                && manager.undoStack == old(manager.undoStack)[..|old(manager.undoStack)| - 1]
                && manager.redoStack == old(manager.redoStack) + [Capture(old(manager.shapes), old(manager.nextShapeId))]
                && manager.selected == None && manager.editingEndpoint == None
                && !resizing && resizeHandle == None && editingWaypoint == None
      ensures manager.clipboard == old(manager.clipboard)
      ensures manager.dragX == old(manager.dragX) && manager.dragY == old(manager.dragY)
      ensures Settings() == old(Settings()) && OrthoState() == old(OrthoState())
      ensures resizeCenter == old(resizeCenter) && dragStart == old(dragStart)
    {
      if manager.undoStack != [] {
        UndoTop();
      }
    }

    /** `undo` with something to undo: the manager restores the top
        snapshot, and the app's own edits end. */
    method UndoTop()
      requires Valid() && manager.undoStack != []
      modifies this, manager
      ensures Valid()
      ensures && Loadable(old(manager.undoStack)[|old(manager.undoStack)| - 1])
              && (manager.shapes, manager.nextShapeId) == Restored(old(manager.undoStack)[|old(manager.undoStack)| - 1])
              && manager.undoStack == old(manager.undoStack)[..|old(manager.undoStack)| - 1]
              && manager.redoStack == old(manager.redoStack) + [Capture(old(manager.shapes), old(manager.nextShapeId))]
              && manager.selected == None && manager.editingEndpoint == None
              && !resizing && resizeHandle == None && editingWaypoint == None
      ensures manager.clipboard == old(manager.clipboard)
      ensures manager.dragX == old(manager.dragX) && manager.dragY == old(manager.dragY)
      ensures Settings() == old(Settings()) && OrthoState() == old(OrthoState())
      ensures resizeCenter == old(resizeCenter) && dragStart == old(dragStart)
    {
      DropGestures();
      manager.Undo();
    }

    /** `redo`, the mirror image of `undo`. */
    method Redo()
      requires Valid()
      modifies this, manager
      ensures Valid()
      ensures old(manager.redoStack) == [] ==>
                Document() == old(Document()) && manager.Session() == old(manager.Session()) && Gesture() == old(Gesture())
      ensures old(manager.redoStack) != [] ==>
                && Loadable(old(manager.redoStack)[|old(manager.redoStack)| - 1])
                && (manager.shapes, manager.nextShapeId) == Restored(old(manager.redoStack)[|old(manager.redoStack)| - 1])
                && manager.redoStack == old(manager.redoStack)[..|old(manager.redoStack)| - 1]
                && manager.undoStack == old(manager.undoStack) + [Capture(old(manager.shapes), old(manager.nextShapeId))]
                && manager.selected == None && manager.editingEndpoint == None
                && !resizing && resizeHandle == None && editingWaypoint == None
      ensures manager.clipboard == old(manager.clipboard)
      ensures manager.dragX == old(manager.dragX) && manager.dragY == old(manager.dragY)
      ensures Settings() == old(Settings()) && OrthoState() == old(OrthoState())
      ensures resizeCenter == old(resizeCenter) && dragStart == old(dragStart)
    {
      if manager.redoStack != [] {
        RedoTop();
      }
    }

    /** `redo` with something to redo: the manager restores the top
        snapshot, and the app's own edits end. */
    method RedoTop()
      requires Valid() && manager.redoStack != []
      modifies this, manager
      ensures Valid()
      ensures && Loadable(old(manager.redoStack)[|old(manager.redoStack)| - 1])
              && (manager.shapes, manager.nextShapeId) == Restored(old(manager.redoStack)[|old(manager.redoStack)| - 1])
              && manager.redoStack == old(manager.redoStack)[..|old(manager.redoStack)| - 1]
              && manager.undoStack == old(manager.undoStack) + [Capture(old(manager.shapes), old(manager.nextShapeId))]
              && manager.selected == None && manager.editingEndpoint == None
              && !resizing && resizeHandle == None && editingWaypoint == None
      ensures manager.clipboard == old(manager.clipboard)
      ensures manager.dragX == old(manager.dragX) && manager.dragY == old(manager.dragY)
      ensures Settings() == old(Settings()) && OrthoState() == old(OrthoState())
      ensures resizeCenter == old(resizeCenter) && dragStart == old(dragStart)
    {
      DropGestures();
      manager.Redo();
    }

    /** `delete_selected` (the Delete key): the selected shape is deleted,
        with every connection to it, and any resize or ortho-handle edit
        ends; with nothing selected nothing happens. */
    method DeleteSelected()
      requires Valid()
      modifies this, manager
      ensures Valid()
      ensures old(manager.selected).None? ==>
                Document() == old(Document()) && manager.Session() == old(manager.Session()) && Gesture() == old(Gesture())
      ensures old(manager.selected).Some? ==>
                && manager.shapes == Delete(old(manager.shapes), old(manager.shapes)[old(manager.selected).value])
                && manager.undoStack == Pushed(old(manager.undoStack), Capture(old(manager.shapes), old(manager.nextShapeId)))
                && manager.redoStack == []
                && manager.selected == None && manager.editingEndpoint == None
                && ResizeState() == (false, None, None) && editingWaypoint == None
      ensures manager.nextShapeId == old(manager.nextShapeId) && manager.clipboard == old(manager.clipboard)
      ensures manager.dragX == old(manager.dragX) && manager.dragY == old(manager.dragY)
      ensures Settings() == old(Settings()) && OrthoState() == old(OrthoState()) && dragStart == old(dragStart)
    {
      if manager.selected.None? {
        return;
      }
      manager.DeleteShape(manager.shapes[manager.selected.value]);
      EndEdits();
    }

    /** The app-side flags `clear_selection` resets: any resize and any
        ortho-handle edit end; the resize centre is kept. */
    method DropGestures()
      requires Valid()
      modifies this
      ensures Valid()
      ensures !resizing && resizeHandle == None && editingWaypoint == None
      ensures Settings() == old(Settings()) && OrthoState() == old(OrthoState())
      ensures resizeCenter == old(resizeCenter) && dragStart == old(dragStart)
    {
      resizing, resizeHandle, editingWaypoint := false, None, None;
    }

    /** What `delete_selected` resets after the deletion: any resize and
        any ortho-handle edit end. */
    method EndEdits()
      requires Valid()
      modifies this
      ensures Valid()
      ensures ResizeState() == (false, None, None) && editingWaypoint == None
      ensures Settings() == old(Settings()) && OrthoState() == old(OrthoState()) && dragStart == old(dragStart)
    {
      resizing, resizeHandle, resizeCenter, editingWaypoint := false, None, None, None;
    }

    /** `clear_all` as a new or opened file calls it: a non-empty drawing
        is recorded, then the list empties, the ids restart at 1 and the
        selection is cleared, and with it any resize or ortho-handle
        edit. */
    method ClearAll()
      requires Valid()
      modifies this, manager
      ensures Valid()
      ensures manager.shapes == [] && manager.nextShapeId == 1
      ensures old(manager.shapes) != [] ==>
                && manager.undoStack == Pushed(old(manager.undoStack), Capture(old(manager.shapes), old(manager.nextShapeId)))
                && manager.redoStack == []
      ensures old(manager.shapes) == [] ==>
                manager.undoStack == old(manager.undoStack) && manager.redoStack == old(manager.redoStack)
      ensures manager.selected == None && manager.editingEndpoint == None
      ensures !resizing && resizeHandle == None && editingWaypoint == None
      ensures manager.clipboard == old(manager.clipboard)
      ensures manager.dragX == old(manager.dragX) && manager.dragY == old(manager.dragY)
      ensures Settings() == old(Settings()) && OrthoState() == old(OrthoState())
      ensures resizeCenter == old(resizeCenter) && dragStart == old(dragStart)
    {
      resizing := false;
      resizeHandle := None;
      editingWaypoint := None;
      manager.ClearAll(true);
    }
  }
}
