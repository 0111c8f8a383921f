# abDraw diagram engine, modelled in Dafny

abDraw is a small diagram editor. This project models its core and proves
properties of that model. The modelled core covers:

- the shape record and its dictionary form (`shapes.py`);
- the canvas manager (`canvas_manager.py`), which owns the shape list, hands
  out shape ids, deletes shapes with their incoming connections, keeps the
  bounded undo/redo history and the clipboard, routes orthogonal connectors,
  snaps points to the anchors of nearby shapes, and re-snaps pinned connector
  ends when their targets move;
- the gesture rules of the editor window (`drawing_app.py`): grid snapping,
  building a shape from a drag, resizing through a corner handle, moving a
  shape, dragging and re-pinning connector ends, and placing an orthogonal
  connector point by point.

Modules, one per concern:

| file | module | contents |
|---|---|---|
| `support.dfy` | `Support` | `Option`, `Result`, `Abs`, `Min`, `Max` |
| `shapes.dfy` | `Shapes` | `Shape`, `Connection`, bounds, `to_dict`/`from_dict`, `copy` |
| `ortho.dfy` | `OrthoRouter` | `ortho_path` and the shape of the routed path |
| `snap.dfy` | `SnapEngine` | anchors, the nearest-anchor scan and its specification |
| `graph.dfy` | `ShapeGraph` | deletion with connection cleanup, re-snapping of pinned ends, re-pinning |
| `history.dfy` | `History` | snapshots, the capped push, restoring a snapshot |
| `rules.dfy` | `DrawingRules` | grid snap, `create_shape`, resize, move, the connector size check |
| `canvas.dfy` | `Canvas` | class `CanvasManager`: the manager's state and its methods |
| `app.dfy` | `Editor` | class `DrawingApp`: tool state and the press/drag/release steps |

Representation choices:

- Shapes are values. The manager's list is a `seq<Shape>` field. Updating a
  shape object in place becomes replacing the list element.
- The selection is the selected shape's list index.
- Coordinates are `real`. Distances are compared squared: `d*d < 15*15`
  stands for `sqrt(d2) < 15`.
- Python's `round` is `RoundHalfEven`.
- Where the source takes a square root (the radius of a circle), the model
  takes the root as a parameter tied to its square by a precondition.

## Model

| member | source | states |
|---|---|---|
| Shapes.ParseType | shapes.py:35 | a type name that parses prints back as the same string |
| Shapes.ParseTypeName | shapes.py:35 | every shape type's name parses back to that type |
| Shapes.NewShape | shapes.py:26-63 | a shape built from the seven required fields has the dataclass defaults: id 0, no canvas id, no connections, `h_first`, no waypoints |
| Shapes.WithEndpoint | canvas_manager.py:261-264 | setting one end of a connector puts it at the point and keeps the other end and every other field |
| Shapes.ShiftAll | shapes.py:96 | every point is shifted by the offset; count and order are kept |
| Shapes.GetBounds | shapes.py:79-86 | min ≤ max on both axes; each bound is one of the two coordinates and lies on the right side of both, so it is exactly their min or max |
| Shapes.ToDictFields | shapes.py:65-69 | `to_dict` has one key per dataclass field except `canvas_id`, each holding that field's value |
| Shapes.ToDict | shapes.py:65-69 | the saved dictionary has no `canvas_id` key and always holds `routing` and `waypoints` with the shape's values |
| Shapes.Required | shapes.py:77 | a dictionary missing `x1`, `y1`, `x2`, `y2`, `color`, `width` or `shape_type` does not construct |
| Shapes.WithRouting | shapes.py:59-63 | an absent `routing` gives `h_first` and absent `waypoints` gives `[]`; present values are what the dictionary holds |
| Shapes.Construct | shapes.py:77 | `cls(**data)`: an unknown key or a missing required field is an error; no `canvas_id` entry gives no canvas id; `routing`/`waypoints` are defaulted when absent and read when present |
| Shapes.WithDefaults | shapes.py:74-76 | `canvas_id` is dropped; `routing` and `waypoints` are set only when absent; every other entry is kept and nothing else is added |
| Shapes.FromDict | shapes.py:71-77 | the loaded shape has no canvas id; missing `routing` becomes `h_first` and missing `waypoints` `[]`; present values are kept; a stray key or a missing required field is an error |
| Shapes.FromDictIgnoresCanvasId | shapes.py:74 | loading gives the same result whatever `canvas_id` entry the dictionary holds |
| Shapes.RequiredReadsBack | shapes.py:77 | a dictionary describing `s` yields the seven required fields of `s` |
| Shapes.IdentityReadsBack | shapes.py:36-41 | id, fill, connections and z order are read back as `s` has them |
| Shapes.TextReadsBack | shapes.py:42-48 | the six text fields are read back as `s` has them |
| Shapes.LabelReadsBack | shapes.py:50-54 | the four label fields are read back as `s` has them |
| Shapes.RoutingReadsBack | shapes.py:56-63 | routing and waypoints are read back as `s` has them |
| Shapes.ConstructReadsBack | shapes.py:65-77 | a dictionary with no stray key and no `canvas_id` that describes `s` constructs `s` with its canvas id cleared |
| Shapes.FromDictComplete | shapes.py:74-77 | when `canvas_id` is absent and `routing`/`waypoints` are present, the defaulting step changes nothing |
| Shapes.ToDictDescribes | shapes.py:65-69 | `to_dict(s)` describes `s`, has no stray key and no `canvas_id`, and holds `routing` and `waypoints` |
| Shapes.FromDictToDict | shapes.py:65-77 | round trip: `from_dict(to_dict(s))` is `s` with `canvas_id` None |
| Shapes.CopyDictKeeps | shapes.py:90 | every field that `copy` does not edit keeps its `to_dict` value in the edited dictionary |
| Shapes.CopyDict | shapes.py:88-96 | the edited dictionary has no `canvas_id` key, so the reloaded copy has no canvas id |
| Shapes.CopyDictEdits | shapes.py:91-96 | the four corners are +20, `connections` is empty, and every waypoint is shifted by (20,20) in the edited dictionary |
| Shapes.CopyDictDescribes | shapes.py:88-96 | the edited dictionary describes the shape shifted by 20 with no connections |
| Shapes.CopyDictLoads | shapes.py:88-97 | loading the edited dictionary succeeds and gives that shifted shape without canvas id |
| Shapes.Copy | shapes.py:88-97 | corners +20; waypoints shifted by (20,20) in count and order; connections empty; canvas id None; id, type, routing and every other field kept |
| OrthoRouter.Bend | canvas_manager.py:94-99 | the inserted corner is `(prev.x, curr.y)` for exactly `"v_first"` and `(curr.x, prev.y)` otherwise |
| OrthoRouter.Route | canvas_manager.py:88-101 | the routed path starts at the first input point and ends at the last |
| OrthoRouter.OrthoPath | canvas_manager.py:75-101 | the loop returns the specification path: fewer than two points unchanged, otherwise the routed path |
| OrthoRouter.RouteAxisAligned | canvas_manager.py:88-101 | every consecutive output pair is within 0.5 on the x or the y axis |
| OrthoRouter.RouteLength | canvas_manager.py:88-101 | output length is n plus the number of unaligned input segments, so n ≤ length ≤ 2n−1 |
| OrthoRouter.NoBendsIffAligned | canvas_manager.py:94 | no bend is needed iff every consecutive input pair is already aligned |
| OrthoRouter.RouteIdentityIffAligned | canvas_manager.py:88-101 | routing returns its input unchanged iff the input is already aligned |
| OrthoRouter.RouteAlignedIsIdentity | canvas_manager.py:88-101 | an aligned input is returned as it is |
| OrthoRouter.PositionsEnds | canvas_manager.py:88-101 | the first input point sits at output position 0 and the last at the final position |
| OrthoRouter.RouteKeepsInputs | canvas_manager.py:88-101 | every input point occurs in the output, at strictly increasing positions, first first and last last |
| OrthoRouter.RouteSegments | canvas_manager.py:94-100 | between consecutive input points the output holds nothing when they are aligned and exactly their bend otherwise |
| SnapEngine.Anchors | canvas_manager.py:281-302 | rectangles and squares offer 8 anchors, circles and ellipses 4, triangles 3, lines and text none |
| SnapEngine.Tagged | canvas_manager.py:304 | each anchor of a shape is paired with that shape's index, in order |
| SnapEngine.CandidatesSound | canvas_manager.py:277-302 | every anchor the scan visits belongs to a shape that is neither the excluded one nor a connector |
| SnapEngine.TaggedHas | canvas_manager.py:304 | an anchor of a shape is visited with that shape's index |
| SnapEngine.Scan | canvas_manager.py:304-309 | with no owner the point is the query point and the distance to beat is 225; with an owner, the distance to beat is that point's own squared distance and is below 225 |
| SnapEngine.CandidatesComplete | canvas_manager.py:277-302 | every anchor of every eligible shape is visited |
| SnapEngine.ScanMeetsSpec | canvas_manager.py:304-309 | the scan keeps the best distance equal to the snapped anchor's (or 225 when none) and below every visited distance |
| SnapEngine.ScanSpec | canvas_manager.py:272-311 | the scan result is the first anchor at the least distance when that distance is below 15, and the query point with no owner otherwise |
| SnapEngine.SnapsToUnique | canvas_manager.py:272-311 | at most one point and owner meet that description, so it specifies the scan completely |
| SnapEngine.ScanLands | canvas_manager.py:304-311 | the result is the query point when no shape owns it, and otherwise a visited anchor of its owner |
| SnapEngine.ScanAppend | canvas_manager.py:304-309 | one more anchor is one more step of the scan |
| SnapEngine.TaggedAppend | canvas_manager.py:304 | tagging one more anchor appends one candidate |
| SnapEngine.CandidatesAppend | canvas_manager.py:277-302 | one more shape appends exactly its own anchors to the visiting order |
| SnapEngine.FindSnap | canvas_manager.py:272-311 | without an owner the point is unchanged; with one, the owner is an eligible shape and the point is among its anchors |
| SnapEngine.CandidatesIgnoreLines | canvas_manager.py:278 | two lists that differ only in connectors give the same anchors |
| SnapEngine.CandidatesExcludeLine | canvas_manager.py:269-278 | excluding a connector is the same as excluding nothing |
| ShapeGraph.DropTarget | canvas_manager.py:197-198 | a connection survives iff it does not target the id; the list never grows and is unchanged when nothing targets the id |
| ShapeGraph.Detach | canvas_manager.py:197-198 | only the shape's connections change |
| ShapeGraph.DetachAll | canvas_manager.py:196-198 | every shape, in place, loses exactly its connections to the id |
| ShapeGraph.IndexOf | canvas_manager.py:199 | the index holds a shape equal to the given one |
| ShapeGraph.IndexOfFirst | canvas_manager.py:199 | no equal shape comes before that index (`list.remove` takes the first) |
| ShapeGraph.Delete | canvas_manager.py:190-199 | deleting a shape not in the list changes nothing; otherwise the list is one shorter |
| ShapeGraph.DeleteLeavesNoDangling | canvas_manager.py:196-199 | after deletion no connection targets the deleted id |
| ShapeGraph.DeleteUnfolds | canvas_manager.py:196-199 | the detached shape is in the detached list, and deletion removes its first occurrence there |
| ShapeGraph.DeletedAt | canvas_manager.py:196-199 | deletion removes one position `k` of the detached list, and `ss[k]` equals the deleted shape up to connections |
| ShapeGraph.DeleteRemovesOne | canvas_manager.py:190-199 | exactly one shape goes, and it equals the deleted one up to connections; every other shape keeps its place and all fields but the dropped connections |
| ShapeGraph.RemovedIds | canvas_manager.py:196-199 | removing a position keeps every other shape's id, and unique ids stay unique |
| ShapeGraph.DeleteRemovesId | canvas_manager.py:190-199 | with unique ids, the deleted id is gone and the remaining ids stay unique |
| ShapeGraph.Resnap | canvas_manager.py:324-330 | one connector's pass changes nothing but its four corner coordinates |
| ShapeGraph.ResnapEndpoint | canvas_manager.py:324-330 | an end no connection pins stays put; an end pinned once moves to the snap of where it was |
| ShapeGraph.Follow | canvas_manager.py:321-331 | the list keeps its length |
| ShapeGraph.FollowMovesOnlyEndpoints | canvas_manager.py:320-331 | re-snapping changes only connector corner coordinates; other shapes and hence the snap anchors are unchanged |
| ShapeGraph.FollowEndpoints | canvas_manager.py:320-331 | a connector end moves to the snap of its old position when exactly one followed target pins it, and otherwise stays; non-connectors stay |
| ShapeGraph.FollowKeepsIds | canvas_manager.py:253-265 | re-snapping keeps the set of ids and their uniqueness |
| ShapeGraph.FollowMoved | canvas_manager.py:320-331 | the list keeps its length, every non-connector is unchanged, and a connector changes only its corner coordinates |
| ShapeGraph.Rebuild | canvas_manager.py:253-265 | the list keeps its length, every non-connector is unchanged, and a connector changes only its corner coordinates |
| ShapeGraph.DropEndpoint | drawing_app.py:714-715 | a connection survives iff it is for the other end |
| ShapeGraph.DropEndpointCounts | drawing_app.py:714-715 | the released end has no connections left and the other end's count is unchanged |
| ShapeGraph.Reconnect | drawing_app.py:713-724 | a connection is in the result iff it was one for the other end, or it is the new one pinning the end to the target |
| ShapeGraph.ReconnectPins | drawing_app.py:738-753 | after re-pinning, the end has exactly one connection (to the target) when there is a target and none otherwise; the other end's connections are all kept |
| ShapeGraph.PinCountAtMostEndpointCount | canvas_manager.py:324-325 | the connections pinning an end to some target are among those of that end |
| ShapeGraph.ReconnectSinglyPinned | drawing_app.py:713-725 | re-pinning keeps every end pinned at most once |
| History.Capture | canvas_manager.py:38-41 | a snapshot holds `to_dict` of each shape, in order, and the counter |
| History.Pushed | canvas_manager.py:42-44 | a push never adds more than one entry; onto a stack of at most 50 it leaves 1 to 50 entries with the new snapshot last: below the cap it is appended, at the cap the oldest entry is dropped first |
| History.CaptureLoadable | canvas_manager.py:38-68 | every dictionary of a snapshot loads |
| History.CaptureRestorable | canvas_manager.py:38-41 | a capture of a list whose ids are positive, unique and below the counter is restorable |
| History.RecordKeeps | canvas_manager.py:37-46 | recording keeps every entry of the undo stack restorable, leaves 1 to 50 entries and puts the capture last |
| History.MoveKeeps | canvas_manager.py:48-62 | moving the newest snapshot of one stack to be restored, and pushing a capture on the other, keeps both stacks restorable |
| History.PushedRestorable | canvas_manager.py:42-44 | pushing a restorable snapshot onto a restorable stack keeps every entry restorable |
| History.Load | canvas_manager.py:67-68 | one shape per recorded dictionary |
| History.LoadCapture | canvas_manager.py:38-68 | loading a snapshot gives back the recorded shapes with canvas ids cleared |
| History.RegisterAll | canvas_manager.py:67-68 | registering a list keeps its length |
| History.Register | canvas_manager.py:107-110 | a zero id takes the counter, which moves up by one; a nonzero id and the counter are kept; nothing else changes |
| History.RegisterAllAppend | canvas_manager.py:67-68 | registering one more shape appends its registration |
| History.RegisterAllKeeps | canvas_manager.py:107-110 | only zero ids change; nonzero ids are kept; each zero id gets a value from the counter's range; the counter never goes back |
| History.RegisterAllFresh | canvas_manager.py:107-110 | ids handed out follow list order, so no two are equal |
| History.RegisterAllRegistered | canvas_manager.py:107-110 | a list with no zero ids is left alone, and so is the counter |
| History.Restored | canvas_manager.py:64-69 | one shape per recorded dictionary, and the counter never falls below the recorded one |
| History.RestoreCapture | canvas_manager.py:37-69 | restoring a snapshot of registered shapes gives back those shapes (canvas ids cleared, connectors re-snapped) and the same counter |
| History.RestoredIssued | canvas_manager.py:64-69 | restoring a restorable snapshot hands out no new ids: the list is the loaded one with its connectors re-snapped, the counter is the recorded one, and every id is positive, unique and below the counter |
| DrawingRules.RoundHalfEven | drawing_app.py:1044 | the result is within 0.5 of the argument, and at an exact half it is even |
| DrawingRules.RoundHalfEvenUnique | drawing_app.py:1044 | those two conditions determine the result |
| DrawingRules.GridSnap | drawing_app.py:1044 | a snapped coordinate is within half a spacing of the original |
| DrawingRules.SnapPoint | drawing_app.py:1040-1044 | with snapping off the point is unchanged |
| DrawingRules.GridSnapNearest | drawing_app.py:1040-1044 | a snapped coordinate is a multiple of the spacing within half a spacing of the original |
| DrawingRules.GridSnapOnGrid | drawing_app.py:1040-1044 | a coordinate on the grid stays where it is |
| DrawingRules.SnapPointIdempotent | drawing_app.py:1040-1044 | snapping twice is snapping once |
| DrawingRules.SquareEnd | drawing_app.py:855-856 | the far coordinate is `size` away from the anchor, on the side the pointer went |
| DrawingRules.TooSmall | drawing_app.py:848 | a drag is too small iff its end is strictly within 3 of its start on both axes |
| DrawingRules.CreateShape | drawing_app.py:846-859 | nothing iff both extents are below 3; otherwise the drawing settings are applied; a circle is centred on the press point with side 2r; a square keeps the press corner, has equal sides of the larger extent and opens toward the pointer; any other kind is the dragged box |
| DrawingRules.DragCorner | drawing_app.py:551-555 | a west handle sets `x1` and an east one `x2`, a north handle `y1` and a south one `y2`; the opposite coordinates and every other field stay |
| DrawingRules.ResizeSquare | drawing_app.py:524-541 | after any handle the square has equal sides of the larger extent of the dragged box, the corner opposite the handle stays and nothing but the corners changes |
| DrawingRules.ResizeAboutCenter | drawing_app.py:542-550 | circles and ellipses keep the centre taken at the press, never shrink below radius 5, and a circle stays round |
| DrawingRules.Resize | drawing_app.py:519-555 | only the corners change; a square stays square; a shape that is neither square, circle nor ellipse has only its dragged corner moved |
| DrawingRules.Moved | drawing_app.py:657-663 | first corner and every waypoint shift by the step; text's second corner equals its first; other shapes' second corner shifts; nothing else changes |
| DrawingRules.MovedCompose | drawing_app.py:648-666 | two drag steps equal one of their sum, and a zero step leaves a non-text shape alone |
| DrawingRules.MovedBounds | drawing_app.py:657-661 | a moved non-text shape's bounding box is the old one shifted |
| DrawingRules.OrthoTooSmall | drawing_app.py:342 | a connector with turns is never too small; one without is too small iff its end is strictly within 3 of its start on both axes |
| Canvas.Flipped | canvas_manager.py:184 | the routing always changes, to `v_first` iff it was not `v_first`, and is one of the two names |
| Canvas.FlippedTwice | canvas_manager.py:184 | flipping a valid routing twice gives it back |
| Canvas.ReplaceKeepsIds | canvas_manager.py:320-331 | replacing a shape by one with the same id keeps every id positive, unique and below the counter |
| Canvas.RemovalKeepsIds | canvas_manager.py:199 | removing a shape keeps every id positive, unique and below the counter |
| Canvas.AppendKeepsIds | canvas_manager.py:107-114 | appending a shape with an unused positive id below the new counter keeps every id positive, unique and below the counter |
| Canvas.CanvasManager.constructor | canvas_manager.py:18-31 | empty list, counter 1, nothing selected, empty clipboard and stacks |
| Canvas.CanvasManager.RecordState | canvas_manager.py:37-46 | the current state is pushed under the cap of 50; the redo stack is emptied; nothing else changes |
| Canvas.CanvasManager.Undo | canvas_manager.py:48-54 | on an empty stack nothing changes; otherwise the newest snapshot is popped and restored, the current state goes on the redo stack, and the selection is cleared; the total of both stacks is kept |
| Canvas.CanvasManager.Redo | canvas_manager.py:56-62 | the mirror image of undo |
| Canvas.CanvasManager.RestoreState | canvas_manager.py:64-69 | the list and counter become the restored state; the selection is cleared; the stacks are kept |
| Canvas.CanvasManager.AddAll | canvas_manager.py:67-68 | adding loaded shapes one by one registers them in order; shapes that already carry issued ids are kept as they are, and so is the counter |
| Canvas.CanvasManager.AddShape | canvas_manager.py:107-114 | a zero id takes the counter, which moves up by one; a nonzero id and the counter are kept; the shape is appended; with recording on, the new state is pushed |
| Canvas.CanvasManager.ClearSelection | canvas_manager.py:212-214 | no selection and no endpoint edit; nothing else changes |
| Canvas.CanvasManager.ClearAll | canvas_manager.py:202-210 | empty list, counter 1, no selection; the old state is recorded only when asked and the list was not empty |
| Canvas.CanvasManager.FlipRouting | canvas_manager.py:180-188 | a non-ortho shape changes nothing; an ortho connector's routing flips and the flipped state is recorded |
| Canvas.CanvasManager.DeleteShape | canvas_manager.py:190-200 | the list becomes `Delete`'s; a missing shape changes nothing else; otherwise the state before is recorded and the selection cleared |
| Canvas.CanvasManager.RemoveAt | canvas_manager.py:199-200 | exactly the element at the index goes and the selection is cleared |
| Canvas.CanvasManager.DetachConnections | canvas_manager.py:196-198 | every shape loses its connections to the id; nothing else changes |
| Canvas.CanvasManager.Find | canvas_manager.py:199 | the index of the first equal shape |
| Canvas.CanvasManager.CopyShape | canvas_manager.py:227-230 | with a selection, the clipboard holds its copy; otherwise nothing changes |
| Canvas.CanvasManager.PasteShape | canvas_manager.py:232-237 | with a clipboard, a copy of it with a fresh id from the counter is appended and recorded; otherwise nothing changes |
| Canvas.CanvasManager.GetSnapPoint | canvas_manager.py:272-311 | the loop returns the first anchor at least distance strictly within 15 among eligible shapes, with its owner, or the point itself and no owner |
| Canvas.CanvasManager.ScanAnchors | canvas_manager.py:304-309 | the inner loop over one shape's anchors continues the scan by those anchors |
| Canvas.CanvasManager.GetConnectionPoint | canvas_manager.py:267-270 | the connector end's snap against all shapes but the connector itself; the target shape plays no part |
| Canvas.CanvasManager.ResnapLines | canvas_manager.py:253-265 | the connectors pinned to the given ids follow, against the anchors of the list before the pass |
| Canvas.CanvasManager.ResnapConnector | canvas_manager.py:324-331 | one connector makes its pass; the snap anchors stay the same |
| Canvas.CanvasManager.MoveEndpoint | canvas_manager.py:326-330 | one end of one connector moves to its snap; the snap anchors stay the same |
| Canvas.CanvasManager.MoveTo | drawing_app.py:657-664 | the shape is replaced by its moved form and the connectors pinned to it follow |
| Canvas.CanvasManager.UpdateConnectedLines | canvas_manager.py:320-331 | the connectors pinned to the moved shape's id follow it; nothing else changes |
| Canvas.CanvasManager.RebuildConnections | canvas_manager.py:253-265 | every connection whose target exists re-snaps; nothing else changes |
| Editor.OrthoConnector | drawing_app.py:345-350 | the connector has the placed start, end and turns, `h_first` routing, no connections, id 0 and the drawing settings |
| Editor.EndDragPoint | drawing_app.py:623-633 | a dragged end goes to an anchor of an eligible shape when it snaps, and to the grid-snapped pointer otherwise |
| Editor.LandedOn | drawing_app.py:734-738 | an id is reported iff the end snaps; it is the id of the owner of the first nearest anchor, a non-connector other than the line |
| Editor.LandedOnPins | drawing_app.py:738-753 | after a release the end is pinned exactly once, to the landed-on shape, when it snaps and not at all otherwise; the other end's connections are kept |
| Editor.Settled | drawing_app.py:763-782 | with snapping on and the first corner more than 0.1 off the grid, a non-connector becomes its moved form with its first corner on the grid point, and no other non-connector changes; otherwise nothing changes |
| Editor.SettledAtMoves | drawing_app.py:763-782 | towards any target point: a non-connector more than 0.1 off it lands exactly there as its moved form and no other non-connector changes; otherwise nothing changes |
| Editor.DrawingApp.constructor | drawing_app.py:43-79 | select tool, black, empty fill, width 2, snapping on at spacing 20, no gesture, an empty manager |
| Editor.DrawingApp.ClearSelection | canvas_manager.py:212-225 | no selection, no endpoint, resize or waypoint edit; nothing else changes |
| Editor.DrawingApp.CancelOrtho | drawing_app.py:309-313 | no connector is being placed; nothing else changes |
| Editor.DrawingApp.SelectTool | drawing_app.py:266-277 | the tool is set, a connector being placed is cancelled, and the selection and resize are cleared |
| Editor.DrawingApp.DeselectAll | drawing_app.py:974-980 | a connector being placed is abandoned and the selection kept; otherwise the selection, endpoint, resize and waypoint edits are cleared; the document never changes |
| Editor.DrawingApp.OrthoPress | drawing_app.py:394-413 | the first press sets the grid-snapped start; later presses append a grid-snapped turn |
| Editor.DrawingApp.FinalizeOrthoLine | drawing_app.py:332-351 | placing ends; a connector with no turns and both extents below 3 is dropped; otherwise it is added with a fresh id and recorded |
| Editor.DrawingApp.FinishOrthoIfActive | drawing_app.py:358-368 | with turns placed, the last turn becomes the end; with none, placing is cancelled; when not placing, nothing changes |
| Editor.DrawingApp.PressDraw | drawing_app.py:415-417 | the drag origin is the grid-snapped press point |
| Editor.DrawingApp.PressResizeHandle | drawing_app.py:424-443 | a resize starts with the handle; circles and ellipses keep their box centre |
| Editor.DrawingApp.PressWaypointHandle | drawing_app.py:463-485 | the handle's edit starts at the press point |
| Editor.DrawingApp.PressEndpointHandle | drawing_app.py:487-499 | the endpoint edit starts at the press point |
| Editor.DrawingApp.PressSelect | drawing_app.py:501-504 | the selection becomes the hit shape after clearing; a hit records the press point as drag origin and start |
| Editor.DrawingApp.DragResize | drawing_app.py:519-555 | the selection is resized through the handle toward the grid-snapped pointer |
| Editor.DrawingApp.DragEnd | drawing_app.py:623-633 | the connector end goes where `EndDragPoint` says; nothing else changes |
| Editor.DrawingApp.DragWaypoint | drawing_app.py:584-607 | an end handle drags like a connector end; a turn moves to the grid-snapped pointer |
| Editor.DrawingApp.DragEndpoint | drawing_app.py:623-633 | the edited end of the selected connector follows the pointer or its snap |
| Editor.DrawingApp.DragMove | drawing_app.py:644-666 | the selection moves by the step since the last drag event; its connectors follow; a non-connector ends exactly at its moved form; the selection, the endpoint edit, the clipboard, the counter and both stacks are kept |
| Editor.DrawingApp.Repin | drawing_app.py:738-753 | the end's connections are replaced by one to the landed-on shape, if any |
| Editor.DrawingApp.ReleaseResize | drawing_app.py:690-696 | the resize ends and the state is recorded |
| Editor.DrawingApp.ReleaseWaypoint | drawing_app.py:706-731 | an end handle is re-pinned where the end now is; the edit ends and the state is recorded |
| Editor.DrawingApp.ReleaseEndpoint | drawing_app.py:733-758 | the edited end is re-pinned at the pointer; the edit ends and the state is recorded |
| Editor.DrawingApp.Settle | drawing_app.py:764-782 | the list becomes `Settled`'s |
| Editor.DrawingApp.ReleaseMove | drawing_app.py:760-783 | a release more than 2 from the press settles the shape and records; a smaller one changes nothing |
| Editor.DrawingApp.ReleaseDraw | drawing_app.py:784-795 | the shape `create_shape` builds from the drag origin to the grid-snapped release point is added with a fresh id and recorded; a tiny drag adds nothing |
| Editor.DrawingApp.Undo | canvas_manager.py:48-54 | on an empty stack nothing changes; otherwise the newest snapshot is restored, the current state goes on the redo stack, and the selection, endpoint, resize and waypoint edits are cleared; the resize centre and the settings are kept |
| Editor.DrawingApp.Redo | canvas_manager.py:56-62 | the mirror image of undo |
| Editor.DrawingApp.DeleteSelected | drawing_app.py:960-972 | with nothing selected nothing changes; otherwise the selected shape is deleted with every connection to it, the state before is recorded, and the selection and every resize and waypoint edit end |
| Editor.DrawingApp.ClearAll | canvas_manager.py:202-225 | empty list, counter 1, selection and every resize and waypoint edit cleared; a non-empty drawing is recorded first |

## Left out

- Rendering is not modelled: drawing, redrawing, handles, highlights, previews and the status bar.
- Canvas item ids are not modelled. `canvas_id` and `label_canvas_id` are plain fields. Nothing of `redraw_shape` is modelled, including its reset of `label_canvas_id`.
- `file_manager.py`, `main.py`, menus, tooltips, dialogs and the grid drawing are UI or file I/O. They are not part of this model.
- `mark_modified` and the window title are not modelled.
- The editor does not model labels and text: `create_text_at_position`, the label press, drag and release, double-click editing, and the text highlight.
- `bring_to_front`, `send_to_back`, the preview on mouse move and `select_all` are not modelled. They only reorder canvas items, draw, or set status text.
- The right-click handler is not a separate member. It is `FinalizeOrthoLine` called with the grid-snapped pointer.
- Hit-testing (`find_overlapping`, handle tags) is canvas geometry, so it is not modelled. The hit shape or handle is a parameter of the press methods.
- `on_press`, `on_drag` and `on_release` are each split into one method per branch. Each method's preconditions name the state that selects its branch.
- The resize and draw steps need a square root for circles. It is a parameter (`dist`, `radius`) with a precondition fixing its square.
- Floating point is modelled as exact reals, so rounding error is not modelled. Python's `round` is half-to-even on reals.
- Object identity and aliasing are not modelled. Shapes are values, `in` and `remove` use structural equality (as the dataclass `==` does), and the selection is an index.
- Python's dynamic typing is not modelled. A dictionary value of the wrong type, an unknown key, or an unknown `shape_type` makes `FromDict` return an error instead of building an ill-typed shape.
- Editor.DrawingApp.DragWaypoint: requires the turn index to be in range. The handles only offer existing turns, so a Python `IndexError` there is not modelled.
- Editor.DrawingApp.ReleaseEndpoint: the grid-snapped point that the source computes before re-pinning is never used, so the model omits it.
- Editor.Settled: states nothing about a connector's own first corner. A connector may be pinned to its own id, so that corner can be re-snapped after it moves.
- DrawingRules.GridSnap: requires the spacing to be one of the menu's five values, 10 to 50. The editor sets no other, so other spacings are not modelled. `SnapPoint`, `GridSnapNearest` and `SnapPointIdempotent` inherit that requirement.
- ShapeGraph.FollowEndpoints: states where an end goes only when at most one connection pins it. With several pins the end is re-snapped once per pin, which the model computes but no lemma characterises.
- SnapEngine.FindSnap: no lemma states that snapping an already snapped point leaves it in place, and none states that re-snapping connectors twice is the same as once. Both rest on a squared distance being zero only between equal points, and that nonlinear fact about reals is not proved here.
- Canvas.CanvasManager.AddShape: requires a shape that already carries an id to bring one that is positive, unused and below the counter. Restoring and pasting only add such shapes; a duplicate id is not modelled.
- The undo and redo commands of the menu, the toolbar and the keyboard all call the manager directly. `DrawingApp.Undo` and `DrawingApp.Redo` model that call together with the editor flags that clearing the selection resets.
