/** The shape record of the editor, its dictionary form and its value
    operations: bounding box, copy-with-offset, to_dict and from_dict. */
module Shapes {
  import opened Support

  datatype Point = Point(x: real, y: real)

  /** Which end of a connector a connection pins. */
  datatype Endpoint = Start | End

  /** A connector endpoint pinned (softly, by id) to a target shape. */
  datatype Connection = Connection(targetId: int, endpoint: Endpoint)

  datatype ShapeType =
    | Line | Arrow | OrthoLine | OrthoArrow
    | Rectangle | Square | Circle | Ellipse | Triangle | Text

  /** The connector family (`LINE_TYPES`): never a snap target. */
  predicate IsLineType(t: ShapeType) {
    t == Line || t == Arrow || t == OrthoLine || t == OrthoArrow
  }

  predicate IsOrtho(t: ShapeType) {
    t == OrthoLine || t == OrthoArrow
  }

  function TypeName(t: ShapeType): string {
    match t
    case Line => "line"
    case Arrow => "arrow"
    case OrthoLine => "ortho_line"
    case OrthoArrow => "ortho_arrow"
    case Rectangle => "rectangle"
    case Square => "square"
    case Circle => "circle"
    case Ellipse => "ellipse"
    case Triangle => "triangle"
    case Text => "text"
  }

  function ParseType(name: string): (r: Option<ShapeType>)
    ensures r.Some? ==> TypeName(r.value) == name
  {
    if name == "line" then Some(Line)
    else if name == "arrow" then Some(Arrow)
    else if name == "ortho_line" then Some(OrthoLine)
    else if name == "ortho_arrow" then Some(OrthoArrow)
    else if name == "rectangle" then Some(Rectangle)
    else if name == "square" then Some(Square)
    else if name == "circle" then Some(Circle)
    else if name == "ellipse" then Some(Ellipse)
    else if name == "triangle" then Some(Triangle)
    else if name == "text" then Some(Text)
    else None
  }

  lemma ParseTypeName(t: ShapeType)
    ensures ParseType(TypeName(t)) == Some(t)
  {
  }

  /** The shape record, one field per field of the source's dataclass.
      `shapeId == 0` means "not yet registered". */
  datatype Shape = Shape(
    x1: real, y1: real, x2: real, y2: real,
    color: string,
    width: int,
    kind: ShapeType,
    shapeId: int,
    canvasId: Option<int>,
    fillColor: Option<string>,
    connections: seq<Connection>,
    zOrder: int,
    text: Option<string>,
    fontFamily: string,
    fontSize: int,
    fontBold: bool,
    fontItalic: bool,
    textAlign: string,
    labelText: Option<string>,
    labelCanvasId: Option<int>,
    labelOffsetX: real,
    labelOffsetY: real,
    routing: string,
    waypoints: seq<Point>)

  const HFirst: string := "h_first"
  const VFirst: string := "v_first"

  /** The dataclass constructor called with the seven required fields;
      every other field takes its declared default. */
  function NewShape(x1: real, y1: real, x2: real, y2: real, color: string, width: int,
                    kind: ShapeType): (s: Shape)
    ensures s.shapeId == 0 && s.canvasId == None && s.connections == []
    ensures s.routing == HFirst && s.waypoints == []
  {
    Shape(x1, y1, x2, y2, color, width, kind, 0, None, None, [], 0,
          None, "Arial", 12, false, false, "left", None, None, 0.0, 0.0,
          HFirst, [])
  }

  function StartOf(s: Shape): Point { Point(s.x1, s.y1) }
  function EndOf(s: Shape): Point { Point(s.x2, s.y2) }

  function EndpointOf(s: Shape, e: Endpoint): Point {
    if e == Start then StartOf(s) else EndOf(s)
  }

  /** Assigns the coordinates of one endpoint, leaving the other alone. */
  function WithEndpoint(s: Shape, e: Endpoint, p: Point): (r: Shape)
    ensures EndpointOf(r, e) == p
    ensures e == Start ==> EndOf(r) == EndOf(s)
    ensures e == End ==> StartOf(r) == StartOf(s)
    ensures r.(x1 := s.x1, y1 := s.y1, x2 := s.x2, y2 := s.y2) == s
  {
    if e == Start then s.(x1 := p.x, y1 := p.y) else s.(x2 := p.x, y2 := p.y)
  }

  function Shift(p: Point, dx: real, dy: real): Point {
    Point(p.x + dx, p.y + dy)
  }

  function ShiftAll(ps: seq<Point>, dx: real, dy: real): (r: seq<Point>)
    ensures |r| == |ps|
    ensures forall i :: 0 <= i < |ps| ==> r[i] == Shift(ps[i], dx, dy)
  {
    seq(|ps|, i requires 0 <= i < |ps| => Shift(ps[i], dx, dy))
  }

  // ---------------------------------------------------------------------
  // Bounding box
  // ---------------------------------------------------------------------

  datatype Bounds = Bounds(minX: real, minY: real, maxX: real, maxY: real)

  /** The axis-aligned box spanned by the two corner points. */
  function GetBounds(s: Shape): (b: Bounds)
    ensures b.minX <= b.maxX && b.minY <= b.maxY
    ensures b.minX <= s.x1 && b.minX <= s.x2 && (b.minX == s.x1 || b.minX == s.x2)
    ensures b.minY <= s.y1 && b.minY <= s.y2 && (b.minY == s.y1 || b.minY == s.y2)
    ensures b.maxX >= s.x1 && b.maxX >= s.x2 && (b.maxX == s.x1 || b.maxX == s.x2)
    ensures b.maxY >= s.y1 && b.maxY >= s.y2 && (b.maxY == s.y1 || b.maxY == s.y2)
  {
    Bounds(Min(s.x1, s.x2), Min(s.y1, s.y2), Max(s.x1, s.x2), Max(s.y1, s.y2))
  }

  // ---------------------------------------------------------------------
  // Dictionary form
  // ---------------------------------------------------------------------

  /** The keys of a shape's dictionary; `Unknown` stands for any other key. */
  datatype Key =
    | X1 | Y1 | X2 | Y2 | Color | Width | Type | ShapeId | CanvasId | FillColor
    | Connections | ZOrder | TextKey | FontFamily | FontSize | FontBold | FontItalic
    | TextAlign | Label | LabelCanvasId | LabelOffsetX | LabelOffsetY | Routing
    | Waypoints | Unknown(name: string)

  datatype Value =
    | Num(r: real) | Int(i: int) | Str(s: string) | Bool(b: bool) | Null
    | Points(pts: seq<Point>) | Conns(cs: seq<Connection>)

  type ShapeDict = map<Key, Value>

  /** Why building a shape from a dictionary fails (a `TypeError` in the source). */
  datatype LoadError =
    | UnexpectedField
    | MissingField(key: Key)
    | WrongType(key: Key)
    | UnknownShapeType(name: string)

  const FieldKeys: set<Key> := {
    X1, Y1, X2, Y2, Color, Width, Type, ShapeId, CanvasId, FillColor,
    Connections, ZOrder, TextKey, FontFamily, FontSize, FontBold, FontItalic,
    TextAlign, Label, LabelCanvasId, LabelOffsetX, LabelOffsetY, Routing, Waypoints }

  function OptStr(o: Option<string>): Value {
    if o.Some? then Str(o.value) else Null
  }

  function OptInt(o: Option<int>): Value {
    if o.Some? then Int(o.value) else Null
  }

  /** The value a field holds in the dictionary form. */
  function FieldValue(s: Shape, k: Key): Value {
    match k
    case X1 => Num(s.x1)
    case Y1 => Num(s.y1)
    case X2 => Num(s.x2)
    case Y2 => Num(s.y2)
    case Color => Str(s.color)
    case Width => Int(s.width)
    case Type => Str(TypeName(s.kind))
    case ShapeId => Int(s.shapeId)
    case CanvasId => OptInt(s.canvasId)
    case FillColor => OptStr(s.fillColor)
    case Connections => Conns(s.connections)
    case ZOrder => Int(s.zOrder)
    case TextKey => OptStr(s.text)
    case FontFamily => Str(s.fontFamily)
    case FontSize => Int(s.fontSize)
    case FontBold => Bool(s.fontBold)
    case FontItalic => Bool(s.fontItalic)
    case TextAlign => Str(s.textAlign)
    case Label => OptStr(s.labelText)
    case LabelCanvasId => OptInt(s.labelCanvasId)
    case LabelOffsetX => Num(s.labelOffsetX)
    case LabelOffsetY => Num(s.labelOffsetY)
    case Routing => Str(s.routing)
    case Waypoints => Points(s.waypoints)
    case Unknown(_) => Null
  }

  /** `asdict`: every field under its own key. */
  function AsDict(s: Shape): ShapeDict {
    map k | k in FieldKeys :: FieldValue(s, k)
  }

  lemma FieldKeysAreKnown()
    ensures forall k: Key :: k in FieldKeys <==> !k.Unknown?
  {
    forall k: Key | !k.Unknown? ensures k in FieldKeys {
      match k {
        case X1 => case Y1 => case X2 => case Y2 => case Color => case Width =>
        case Type => case ShapeId => case CanvasId => case FillColor =>
        case Connections => case ZOrder => case TextKey => case FontFamily =>
        case FontSize => case FontBold => case FontItalic => case TextAlign =>
        case Label => case LabelCanvasId => case LabelOffsetX => case LabelOffsetY =>
        case Routing => case Waypoints =>
      }
    }
  }

  /** `to_dict`: every field except the canvas item handle, so a saved
      shape never carries a canvas handle and never leaves `routing` or
      `waypoints` to the loader's defaults. */
  function ToDict(s: Shape): (d: ShapeDict)
    ensures CanvasId !in d
    ensures Routing in d && d[Routing] == Str(s.routing)
    ensures Waypoints in d && d[Waypoints] == Points(s.waypoints)
  {
    AsDict(s) - {CanvasId}
  }

  lemma ToDictFields(s: Shape)
    ensures forall k: Key :: k in ToDict(s) <==> !k.Unknown? && k != CanvasId
    ensures forall k :: k in ToDict(s) ==> ToDict(s)[k] == FieldValue(s, k)
  {
    FieldKeysAreKnown();
  }

  function ReqReal(d: ShapeDict, k: Key): Result<real, LoadError> {
    if k !in d then Err(MissingField(k))
    else if d[k].Num? then Ok(d[k].r) else Err(WrongType(k))
  }

  function ReqInt(d: ShapeDict, k: Key): Result<int, LoadError> {
    if k !in d then Err(MissingField(k))
    else if d[k].Int? then Ok(d[k].i) else Err(WrongType(k))
  }

  function ReqStr(d: ShapeDict, k: Key): Result<string, LoadError> {
    if k !in d then Err(MissingField(k))
    else if d[k].Str? then Ok(d[k].s) else Err(WrongType(k))
  }

  function GetReal(d: ShapeDict, k: Key, default: real): Result<real, LoadError> {
    if k !in d then Ok(default)
    else if d[k].Num? then Ok(d[k].r) else Err(WrongType(k))
  }

  function GetInt(d: ShapeDict, k: Key, default: int): Result<int, LoadError> {
    if k !in d then Ok(default)
    else if d[k].Int? then Ok(d[k].i) else Err(WrongType(k))
  }

  function GetStr(d: ShapeDict, k: Key, default: string): Result<string, LoadError> {
    if k !in d then Ok(default)
    else if d[k].Str? then Ok(d[k].s) else Err(WrongType(k))
  }

  function GetBool(d: ShapeDict, k: Key, default: bool): Result<bool, LoadError> {
    if k !in d then Ok(default)
    else if d[k].Bool? then Ok(d[k].b) else Err(WrongType(k))
  }

  /** An `Optional[str]` field defaulting to `None`. */
  function GetOptStr(d: ShapeDict, k: Key): Result<Option<string>, LoadError> {
    if k !in d || d[k].Null? then Ok(None)
    else if d[k].Str? then Ok(Some(d[k].s)) else Err(WrongType(k))
  }

  /** An `Optional[int]` field defaulting to `None`. */
  function GetOptInt(d: ShapeDict, k: Key): Result<Option<int>, LoadError> {
    if k !in d || d[k].Null? then Ok(None)
    else if d[k].Int? then Ok(Some(d[k].i)) else Err(WrongType(k))
  }

  function GetPoints(d: ShapeDict, k: Key): Result<seq<Point>, LoadError> {
    if k !in d then Ok([])
    else if d[k].Points? then Ok(d[k].pts) else Err(WrongType(k))
  }

  function GetConns(d: ShapeDict, k: Key): Result<seq<Connection>, LoadError> {
    if k !in d then Ok([])
    else if d[k].Conns? then Ok(d[k].cs) else Err(WrongType(k))
  }

  predicate HasUnknownKey(d: ShapeDict) {
    exists k :: k in d && k.Unknown?
  }

  /** The seven fields without a default; a missing one is an error. */
  function Required(d: ShapeDict): (r: Result<Shape, LoadError>)
    ensures X1 !in d || Y1 !in d || X2 !in d || Y2 !in d || Color !in d || Width !in d || Type !in d ==> r.Err?
  {
    var x1 :- ReqReal(d, X1);
    var y1 :- ReqReal(d, Y1);
    var x2 :- ReqReal(d, X2);
    var y2 :- ReqReal(d, Y2);
    var color :- ReqStr(d, Color);
    var width :- ReqInt(d, Width);
    var typeName :- ReqStr(d, Type);
    var kind := ParseType(typeName);
    if kind.None? then Err(UnknownShapeType(typeName))
    else Ok(NewShape(x1, y1, x2, y2, color, width, kind.value))
  }

  function WithIdentity(d: ShapeDict, s: Shape): (r: Result<Shape, LoadError>)
    ensures r.Ok? && CanvasId !in d ==> r.value.canvasId == None
  {
    var shapeId :- GetInt(d, ShapeId, 0);
    var canvasId :- GetOptInt(d, CanvasId);
    var fillColor :- GetOptStr(d, FillColor);
    var connections :- GetConns(d, Connections);
    var zOrder :- GetInt(d, ZOrder, 0);
    Ok(s.(shapeId := shapeId, canvasId := canvasId, fillColor := fillColor,
          connections := connections, zOrder := zOrder))
  }

  function WithText(d: ShapeDict, s: Shape): (r: Result<Shape, LoadError>)
    ensures r.Ok? ==> r.value.canvasId == s.canvasId
  {
    var text :- GetOptStr(d, TextKey);
    var fontFamily :- GetStr(d, FontFamily, "Arial");
    var fontSize :- GetInt(d, FontSize, 12);
    var fontBold :- GetBool(d, FontBold, false);
    var fontItalic :- GetBool(d, FontItalic, false);
    var textAlign :- GetStr(d, TextAlign, "left");
    Ok(s.(text := text, fontFamily := fontFamily, fontSize := fontSize,
          fontBold := fontBold, fontItalic := fontItalic, textAlign := textAlign))
  }

  function WithLabel(d: ShapeDict, s: Shape): (r: Result<Shape, LoadError>)
    ensures r.Ok? ==> r.value.canvasId == s.canvasId
  {
    var labelText :- GetOptStr(d, Label);
    var labelCanvasId :- GetOptInt(d, LabelCanvasId);
    var labelOffsetX :- GetReal(d, LabelOffsetX, 0.0);
    var labelOffsetY :- GetReal(d, LabelOffsetY, 0.0);
    Ok(s.(labelText := labelText, labelCanvasId := labelCanvasId,
          labelOffsetX := labelOffsetX, labelOffsetY := labelOffsetY))
  }

  function WithRouting(d: ShapeDict, s: Shape): (r: Result<Shape, LoadError>)
    ensures r.Ok? ==> r.value.canvasId == s.canvasId
    ensures r.Ok? && Routing !in d ==> r.value.routing == HFirst
    ensures r.Ok? && Waypoints !in d ==> r.value.waypoints == []
    ensures r.Ok? && Routing in d ==> d[Routing] == Str(r.value.routing)
    ensures r.Ok? && Waypoints in d ==> d[Waypoints] == Points(r.value.waypoints)
  {
    var routing :- GetStr(d, Routing, HFirst);
    var waypoints :- GetPoints(d, Waypoints);
    Ok(s.(routing := routing, waypoints := waypoints))
  }

  /** The dataclass constructor applied to keyword arguments `**d`. */
  function Construct(d: ShapeDict): (r: Result<Shape, LoadError>)
    ensures HasUnknownKey(d) ==> r.Err?
    ensures X1 !in d || Y1 !in d || X2 !in d || Y2 !in d || Color !in d || Width !in d || Type !in d ==> r.Err?
    ensures r.Ok? && CanvasId !in d ==> r.value.canvasId == None
    ensures r.Ok? && Routing !in d ==> r.value.routing == HFirst
    ensures r.Ok? && Waypoints !in d ==> r.value.waypoints == []
    ensures r.Ok? && Routing in d ==> d[Routing] == Str(r.value.routing)
    ensures r.Ok? && Waypoints in d ==> d[Waypoints] == Points(r.value.waypoints)
  {
    if HasUnknownKey(d) then Err(UnexpectedField)
    else
      var base :- Required(d);
      var s1 :- WithIdentity(d, base);
      var s2 :- WithText(d, s1);
      var s3 :- WithLabel(d, s2);
      WithRouting(d, s3)
  }

  /** The dictionary `from_dict` hands to the constructor: the canvas
      handle dropped, `routing` and `waypoints` defaulted, all else as
      given. */
  function WithDefaults(d: ShapeDict): (r: ShapeDict)
    ensures CanvasId !in r && Routing in r && Waypoints in r
    ensures Routing in d ==> r[Routing] == d[Routing]
    ensures Routing !in d ==> r[Routing] == Str(HFirst)
    ensures Waypoints in d ==> r[Waypoints] == d[Waypoints]
    ensures Waypoints !in d ==> r[Waypoints] == Points([])
    ensures forall k :: k in d && k != CanvasId ==> k in r && r[k] == d[k]
    ensures forall k :: k in r && k != Routing && k != Waypoints ==> k in d
  {
    var d1 := d - {CanvasId};
    var d2 := if Routing in d1 then d1 else d1[Routing := Str(HFirst)];
    if Waypoints in d2 then d2 else d2[Waypoints := Points([])]
  }

  /** `from_dict`: drops the canvas handle, defaults `routing` and
      `waypoints`, then constructs. */
  function FromDict(d: ShapeDict): (r: Result<Shape, LoadError>)
    ensures r.Ok? ==> r.value.canvasId == None
    ensures r.Ok? && Routing !in d ==> r.value.routing == HFirst
    ensures r.Ok? && Waypoints !in d ==> r.value.waypoints == []
    ensures r.Ok? && Routing in d ==> d[Routing] == Str(r.value.routing)
    ensures r.Ok? && Waypoints in d ==> d[Waypoints] == Points(r.value.waypoints)
    ensures HasUnknownKey(d) ==> r.Err?
    ensures X1 !in d || Y1 !in d || X2 !in d || Y2 !in d || Color !in d || Width !in d || Type !in d ==> r.Err?
  {
    var r := WithDefaults(d);
    assert HasUnknownKey(d) ==> HasUnknownKey(r) by {
      if HasUnknownKey(d) {
        var k :| k in d && k.Unknown?;
        assert k in r;
      }
    }
    assert X1 in r <==> X1 in d;
    assert Y1 in r <==> Y1 in d;
    assert X2 in r <==> X2 in d;
    assert Y2 in r <==> Y2 in d;
    assert Type in r <==> Type in d;
    Construct(r)
  }

  /** A present `canvas_id` entry has no influence on the loaded shape. */
  lemma FromDictIgnoresCanvasId(d: ShapeDict, v: Value)
    ensures FromDict(d[CanvasId := v]) == FromDict(d)
  {
    assert d[CanvasId := v] - {CanvasId} == d - {CanvasId};
  }

  /** `d` holds every field of `s` except the canvas handle, as `to_dict` writes them. */
  ghost predicate Describes(d: ShapeDict, s: Shape) {
    forall k: Key :: !k.Unknown? && k != CanvasId ==> k in d && d[k] == FieldValue(s, k)
  }

  lemma RequiredReadsBack(d: ShapeDict, s: Shape)
    requires Describes(d, s)
    ensures Required(d) == Ok(NewShape(s.x1, s.y1, s.x2, s.y2, s.color, s.width, s.kind))
  {
    assert d[X1] == FieldValue(s, X1) && d[Y1] == FieldValue(s, Y1);
    assert d[X2] == FieldValue(s, X2) && d[Y2] == FieldValue(s, Y2);
    assert d[Color] == FieldValue(s, Color) && d[Width] == FieldValue(s, Width);
    assert d[Type] == FieldValue(s, Type);
    ParseTypeName(s.kind);
  }

  lemma IdentityReadsBack(d: ShapeDict, s: Shape, t: Shape)
    requires Describes(d, s) && CanvasId !in d
    ensures WithIdentity(d, t) == Ok(t.(shapeId := s.shapeId, canvasId := None, fillColor := s.fillColor,
                                        connections := s.connections, zOrder := s.zOrder))
  {
    assert d[ShapeId] == FieldValue(s, ShapeId) && d[FillColor] == FieldValue(s, FillColor);
    assert d[Connections] == FieldValue(s, Connections) && d[ZOrder] == FieldValue(s, ZOrder);
  }

  lemma TextReadsBack(d: ShapeDict, s: Shape, t: Shape)
    requires Describes(d, s)
    ensures WithText(d, t) == Ok(t.(text := s.text, fontFamily := s.fontFamily, fontSize := s.fontSize,
                                    fontBold := s.fontBold, fontItalic := s.fontItalic,
                                    textAlign := s.textAlign))
  {
    assert d[TextKey] == FieldValue(s, TextKey) && d[FontFamily] == FieldValue(s, FontFamily);
    assert d[FontSize] == FieldValue(s, FontSize) && d[FontBold] == FieldValue(s, FontBold);
    assert d[FontItalic] == FieldValue(s, FontItalic) && d[TextAlign] == FieldValue(s, TextAlign);
  }

  lemma LabelReadsBack(d: ShapeDict, s: Shape, t: Shape)
    requires Describes(d, s)
    ensures WithLabel(d, t) == Ok(t.(labelText := s.labelText, labelCanvasId := s.labelCanvasId,
                                     labelOffsetX := s.labelOffsetX, labelOffsetY := s.labelOffsetY))
  {
    assert d[Label] == FieldValue(s, Label) && d[LabelCanvasId] == FieldValue(s, LabelCanvasId);
    assert d[LabelOffsetX] == FieldValue(s, LabelOffsetX) && d[LabelOffsetY] == FieldValue(s, LabelOffsetY);
  }

  lemma RoutingReadsBack(d: ShapeDict, s: Shape, t: Shape)
    requires Describes(d, s)
    ensures WithRouting(d, t) == Ok(t.(routing := s.routing, waypoints := s.waypoints))
  {
    assert d[Routing] == FieldValue(s, Routing) && d[Waypoints] == FieldValue(s, Waypoints);
  }

  /** The constructor reads back every field the dictionary describes. */
  lemma ConstructReadsBack(d: ShapeDict, s: Shape)
    requires Describes(d, s) && CanvasId !in d && !HasUnknownKey(d)
    ensures Construct(d) == Ok(s.(canvasId := None))
  {
    var base := NewShape(s.x1, s.y1, s.x2, s.y2, s.color, s.width, s.kind);
    RequiredReadsBack(d, s);
    var s1 := base.(shapeId := s.shapeId, canvasId := None, fillColor := s.fillColor,
                    connections := s.connections, zOrder := s.zOrder);
    IdentityReadsBack(d, s, base);
    var s2 := s1.(text := s.text, fontFamily := s.fontFamily, fontSize := s.fontSize,
                  fontBold := s.fontBold, fontItalic := s.fontItalic, textAlign := s.textAlign);
    TextReadsBack(d, s, s1);
    var s3 := s2.(labelText := s.labelText, labelCanvasId := s.labelCanvasId,
                  labelOffsetX := s.labelOffsetX, labelOffsetY := s.labelOffsetY);
    LabelReadsBack(d, s, s2);
    RoutingReadsBack(d, s, s3);
    assert s3.(routing := s.routing, waypoints := s.waypoints) == s.(canvasId := None);
  }

  /** A dictionary that already has `routing` and `waypoints` and no canvas
      handle reaches the constructor unchanged. */
  lemma FromDictComplete(d: ShapeDict)
    requires CanvasId !in d && Routing in d && Waypoints in d
    ensures FromDict(d) == Construct(d)
  {
    assert d - {CanvasId} == d;
  }

  lemma ToDictDescribes(s: Shape)
    ensures Describes(ToDict(s), s) && !HasUnknownKey(ToDict(s))
    ensures CanvasId !in ToDict(s) && Routing in ToDict(s) && Waypoints in ToDict(s)
  {
    ToDictFields(s);
  }

  /** Saving then loading a shape gives it back, with its canvas handle cleared. */
  lemma FromDictToDict(s: Shape)
    ensures FromDict(ToDict(s)) == Ok(s.(canvasId := None))
  {
    ToDictDescribes(s);
    FromDictComplete(ToDict(s));
    ConstructReadsBack(ToDict(s), s);
  }

  // ---------------------------------------------------------------------
  // Copy
  // ---------------------------------------------------------------------

  const CopyOffset: real := 20.0

  /** The dictionary `copy` edits before reloading it: `to_dict` with the
      corners, the connections and the waypoints overwritten. */
  function CopyDict(s: Shape): (d: ShapeDict)
    ensures CanvasId !in d
  {
    ToDict(s)[X1 := Num(s.x1 + CopyOffset)][Y1 := Num(s.y1 + CopyOffset)]
             [X2 := Num(s.x2 + CopyOffset)][Y2 := Num(s.y2 + CopyOffset)]
             [Connections := Conns([])]
             [Waypoints := Points(ShiftAll(s.waypoints, CopyOffset, CopyOffset))]
  }

  /** The shape `copy` is meant to produce, before its canvas handle is cleared. */
  function Shifted(s: Shape): Shape {
    s.(x1 := s.x1 + CopyOffset, y1 := s.y1 + CopyOffset,
       x2 := s.x2 + CopyOffset, y2 := s.y2 + CopyOffset, connections := [],
       waypoints := ShiftAll(s.waypoints, CopyOffset, CopyOffset))
  }

  /** A field `copy` does not edit reads the same in the edited
      dictionary and in the shifted shape as in the original. */
  lemma CopyDictKeeps(s: Shape, k: Key)
    requires !k.Unknown? && k != CanvasId
    requires k !in {X1, Y1, X2, Y2, Connections, Waypoints}
    ensures k in CopyDict(s) && CopyDict(s)[k] == FieldValue(Shifted(s), k)
  {
    ToDictFields(s);
    assert CopyDict(s)[k] == ToDict(s)[k];
  }

  /** A field `copy` edits holds the shifted shape's value. */
  lemma CopyDictEdits(s: Shape, k: Key)
    requires k in {X1, Y1, X2, Y2, Connections, Waypoints}
    ensures k in CopyDict(s) && CopyDict(s)[k] == FieldValue(Shifted(s), k)
  {
  }

  lemma CopyDictDescribes(s: Shape)
    ensures Describes(CopyDict(s), Shifted(s))
  {
    forall k: Key | !k.Unknown? && k != CanvasId ensures k in CopyDict(s) && CopyDict(s)[k] == FieldValue(Shifted(s), k) {
      if k in {X1, Y1, X2, Y2, Connections, Waypoints} {
        CopyDictEdits(s, k);
      } else {
        CopyDictKeeps(s, k);
      }
    }
  }

  lemma CopyDictLoads(s: Shape)
    ensures FromDict(CopyDict(s)) == Ok(Shifted(s).(canvasId := None))
  {
    var d := CopyDict(s);
    ToDictDescribes(s);
    CopyDictDescribes(s);
    forall k | k in d ensures !k.Unknown? {
      assert k in ToDict(s);
    }
    FromDictComplete(d);
    ConstructReadsBack(d, Shifted(s));
  }

  /** `copy`: goes through the dictionary form, shifting the corners and
      waypoints by (20, 20) and dropping the connections. */
  function Copy(s: Shape): (r: Shape)
    ensures r.x1 == s.x1 + CopyOffset && r.y1 == s.y1 + CopyOffset
    ensures r.x2 == s.x2 + CopyOffset && r.y2 == s.y2 + CopyOffset
    ensures |r.waypoints| == |s.waypoints|
    ensures forall i :: 0 <= i < |s.waypoints| ==>
              r.waypoints[i] == Point(s.waypoints[i].x + CopyOffset, s.waypoints[i].y + CopyOffset)
    ensures r.connections == []
    ensures r.canvasId == None
    ensures r.shapeId == s.shapeId && r.kind == s.kind && r.routing == s.routing
    ensures r.labelCanvasId == s.labelCanvasId
    ensures r.(x1 := s.x1, y1 := s.y1, x2 := s.x2, y2 := s.y2, connections := s.connections,
               canvasId := s.canvasId, waypoints := s.waypoints) == s
  {
    CopyDictLoads(s);
    FromDict(CopyDict(s)).value
  }
}
