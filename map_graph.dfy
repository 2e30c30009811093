// The geometry behind the map preview: the scale that fits the map into its
// container, the index from node id to position, the stroke style of a road,
// and the list of drawable edges (those whose two endpoints are known), with
// their points in stage coordinates.
//
// The component reads the `graph` of a decoded `map.created` reply; the
// readers `NodeOf` and `EdgeOf` turn its decoded records into the typed
// nodes and edges below and never fail on what the schema accepted.

module MapGraph {
  import opened Wrappers
  import opened Json
  import opened Zod
  import ProtocolSchema
  import Js
  import MapCreator

  datatype Point = Point(x: real, y: real)
  datatype Node = Node(id: string, x: real, y: real)
  datatype RoadClass = A | S | GP | G | Z | L | D
  datatype Edge = Edge(id: string, fromNode: string, toNode: string, roadClass: RoadClass, lanes: real)

  // ---------------------------------------------------------------------
  // Fit scale

  /** The margin, in pixels, kept free on every side of the map. */
  const Padding: real := 24.0

  /** A scale at which the whole map fits the container inside its padding. */
  predicate Fits(t: real, width: real, height: real, mapWidth: real, mapHeight: real)
  {
    mapWidth * t <= width - 2.0 * Padding && mapHeight * t <= height - 2.0 * Padding
  }

  /**
   * `fitScale`: 1 while the container has no area; otherwise the smaller of
   * the two axis ratios between the padded container and the map, but never
   * below 0.0001.
   */
  function FitScale(width: real, height: real, mapWidth: real, mapHeight: real): (r: real)
    requires mapWidth > 0.0 && mapHeight > 0.0
    ensures width <= 0.0 || height <= 0.0 ==> r == 1.0
    ensures r >= 0.0001
  {
    if width <= 0.0 || height <= 0.0 then 1.0
    else
      var sx := (width - Padding * 2.0) / mapWidth;
      var sy := (height - Padding * 2.0) / mapHeight;
      Js.Max(0.0001, Js.Min(sx, sy))
  }

  /** A decoded `map.created` reply always has a positive map size, so the ratios are defined. */
  lemma DecodedMapSizePositive(m: map<string, Json>, out: map<string, Json>)
    requires Validate(ProtocolSchema.MapCreatedData, JObj(m)) == Ok(JObj(out))
    ensures Num(out, "map_width").Some? && Num(out, "map_width").value > 0.0
    ensures Num(out, "map_height").Some? && Num(out, "map_height").value > 0.0
  {
    MapCreator.CreatedEchoesParams(m, out);
    MapCreator.PositiveFieldBounds("map_width", out["map_width"]);
    MapCreator.PositiveFieldBounds("map_height", out["map_height"]);
  }

  lemma RatioBound(t: real, room: real, size: real)
    requires size > 0.0
    ensures size * t <= room <==> t <= room / size
    ensures size * (room / size) == room
  {
    if size * t <= room {
      assert t == (size * t) / size;
    }
    if t <= room / size {
      assert size * t <= size * (room / size);
    }
  }

  /**
   * With a non-empty container, a scale above the floor is the largest that
   * fits; when the floor applies, no scale above it fits.
   */
  lemma FitScaleIsLargestFit(width: real, height: real, mapWidth: real, mapHeight: real, t: real)
    requires mapWidth > 0.0 && mapHeight > 0.0 && width > 0.0 && height > 0.0
    ensures FitScale(width, height, mapWidth, mapHeight) > 0.0001 ==>
      Fits(FitScale(width, height, mapWidth, mapHeight), width, height, mapWidth, mapHeight)
    ensures Fits(t, width, height, mapWidth, mapHeight) ==> t <= FitScale(width, height, mapWidth, mapHeight)
  {
    var r := FitScale(width, height, mapWidth, mapHeight);
    var roomX, roomY := width - Padding * 2.0, height - Padding * 2.0;
    RatioBound(t, roomX, mapWidth);
    RatioBound(t, roomY, mapHeight);
    RatioBound(r, roomX, mapWidth);
    RatioBound(r, roomY, mapHeight);
  }

  // ---------------------------------------------------------------------
  // Node index

  function PointOf(n: Node): Point
  {
    Point(n.x, n.y)
  }

  /** `nodeById`: each node sets its id to its position, so a later node with the same id wins. */
  function NodeIndex(nodes: seq<Node>): (r: map<string, Point>)
    ensures |r| <= |nodes|
  {
    if nodes == [] then map[]
    else NodeIndex(nodes[..|nodes| - 1])[nodes[|nodes| - 1].id := PointOf(nodes[|nodes| - 1])]
  }

  /** The ids of a node list. */
  function Ids(nodes: seq<Node>): (r: set<string>)
    ensures forall i | 0 <= i < |nodes| :: nodes[i].id in r
  {
    set n | n in nodes :: n.id
  }

  /** Exactly the ids of the nodes are indexed. */
  lemma {:induction false} NodeIndexKeys(nodes: seq<Node>)
    ensures NodeIndex(nodes).Keys == Ids(nodes)
  {
    if nodes != [] {
      var init := nodes[..|nodes| - 1];
      NodeIndexKeys(init);
      assert nodes == init + [nodes[|nodes| - 1]];
      assert Ids(nodes) == Ids(init) + {nodes[|nodes| - 1].id};
    }
  }

  /** An id maps to the position of the last node carrying it. */
  lemma {:induction false} NodeIndexLastWins(nodes: seq<Node>, i: nat)
    requires i < |nodes|
    requires forall j | i < j < |nodes| :: nodes[j].id != nodes[i].id
    ensures nodes[i].id in NodeIndex(nodes) && NodeIndex(nodes)[nodes[i].id] == PointOf(nodes[i])
  {
    if i < |nodes| - 1 {
      var init := nodes[..|nodes| - 1];
      assert init[i] == nodes[i];
      NodeIndexLastWins(init, i);
    }
  }

  /** The `for (const n of data.graph.nodes) m.set(n.id, …)` loop. */
  method BuildNodeIndex(nodes: seq<Node>) returns (m: map<string, Point>)
    ensures m == NodeIndex(nodes)
  {
    m := map[];
    for i := 0 to |nodes|
      invariant m == NodeIndex(nodes[..i])
    {
      assert nodes[..i + 1][..i] == nodes[..i];
      m := m[nodes[i].id := PointOf(nodes[i])];
    }
    assert nodes[..|nodes|] == nodes;
  }

  // ---------------------------------------------------------------------
  // Road style

  /** The style table entry of a road class. */
  datatype ClassStyle = ClassStyle(stroke: string, base: real, legend: string)

  /** The drawn style of a road: its colour, stroke width and legend label. */
  datatype RoadStroke = RoadStroke(stroke: string, width: real, legend: string)

  function StyleOf(rc: RoadClass): (r: ClassStyle)
    ensures 1.8 <= r.base <= 3.0
    ensures |r.stroke| == 7 && r.stroke[0] == '#'
  {
    match rc
    case A => ClassStyle("#e46b3b", 3.0, "A – Motorway")
    case S => ClassStyle("#f07f4e", 2.8, "S – Expressway")
    case GP => ClassStyle("#f4975f", 2.6, "GP – Primary")
    case G => ClassStyle("#f4a76b", 2.4, "G – Main")
    case Z => ClassStyle("#caa86a", 2.2, "Z – Collector")
    case L => ClassStyle("#b8906c", 2.0, "L – Local")
    case D => ClassStyle("#9b7f67", 1.8, "D – Service")
  }

  /** The class's position in the table, from the motorway down to the service road. */
  function Rank(rc: RoadClass): (r: nat)
    ensures r < 7
  {
    match rc
    case A => 0
    case S => 1
    case GP => 2
    case G => 3
    case Z => 4
    case L => 5
    case D => 6
  }

  /** The class as the protocol spells it. */
  function ClassName(rc: RoadClass): string
  {
    match rc
    case A => "A"
    case S => "S"
    case GP => "GP"
    case G => "G"
    case Z => "Z"
    case L => "L"
    case D => "D"
  }

  /** The class a protocol string names, if any. */
  function ClassOf(s: string): (r: Option<RoadClass>)
    ensures r.Some? ==> ClassName(r.value) == s
  {
    if s == "A" then Some(A)
    else if s == "S" then Some(S)
    else if s == "GP" then Some(GP)
    else if s == "G" then Some(G)
    else if s == "Z" then Some(Z)
    else if s == "L" then Some(L)
    else if s == "D" then Some(D)
    else None
  }

  /** The table covers every class the protocol accepts, and only those. */
  lemma StyleTableCoversRoadClass(s: string)
    ensures Validate(ProtocolSchema.RoadClass, JStr(s)).Ok? <==> ClassOf(s).Some?
  {
  }

  lemma ClassNameRoundTrip(rc: RoadClass)
    ensures ClassOf(ClassName(rc)) == Some(rc)
  {
  }

  /** Base widths strictly decrease down the table, and each label opens with the class name. */
  lemma StyleTableOrdered(a: RoadClass, b: RoadClass)
    ensures Rank(a) < Rank(b) <==> StyleOf(a).base > StyleOf(b).base
    ensures StyleOf(a).legend[..|ClassName(a)| + 3] == ClassName(a) + " – "
  {
  }

  /** `roadStyle(rc, lanes)`: the class's colour and label, and its base width plus 0.6 per lane beyond the first. */
  function RoadStyle(rc: RoadClass, lanes: real): (r: RoadStroke)
    ensures r.stroke == StyleOf(rc).stroke && r.legend == StyleOf(rc).legend
    ensures r.width >= StyleOf(rc).base
    ensures lanes <= 1.0 ==> r.width == StyleOf(rc).base
  {
    RoadStroke(StyleOf(rc).stroke, StyleOf(rc).base + Js.Max(0.0, lanes - 1.0) * 0.6, StyleOf(rc).legend)
  }

  /**
   * More lanes never make a road thinner, and beyond the first lane every
   * extra lane widens it; with equal lanes, a class higher in the table is
   * drawn wider.
   */
  lemma RoadWidthOrder(a: RoadClass, b: RoadClass, lanes: real, more: real)
    requires lanes <= more
    ensures RoadStyle(a, lanes).width <= RoadStyle(a, more).width
    ensures 1.0 <= lanes < more ==> RoadStyle(a, lanes).width < RoadStyle(a, more).width
    ensures Rank(a) < Rank(b) ==> RoadStyle(a, lanes).width > RoadStyle(b, lanes).width
  {
    StyleTableOrdered(a, b);
  }

  // ---------------------------------------------------------------------
  // Edges

  /** The element the stage draws for one edge. */
  datatype Segment = Segment(id: string, points: seq<real>, stroke: string, width: real)

  /** Both endpoints of the edge are indexed. */
  predicate Resolves(e: Edge, index: map<string, Point>)
  {
    e.fromNode in index && e.toNode in index
  }

  /** The edges that resolve, in input order. */
  function Resolved(edges: seq<Edge>, index: map<string, Point>): (r: seq<Edge>)
    ensures |r| <= |edges|
  {
    if edges == [] then []
    else
      var last := edges[|edges| - 1];
      Resolved(edges[..|edges| - 1], index) + (if Resolves(last, index) then [last] else [])
  }

  /** The stage points of a segment from `a` to `b`: both coordinates of each, times the scale. */
  function ScaledPoints(a: Point, b: Point, scale: real): seq<real>
  {
    [a.x * scale, a.y * scale, b.x * scale, b.y * scale]
  }

  /** One edge drawn: its id, its endpoints scaled, and its road style. */
  function Draw(e: Edge, index: map<string, Point>, scale: real): (r: Segment)
    requires Resolves(e, index)
    ensures r.id == e.id && |r.points| == 4
    ensures r.stroke == StyleOf(e.roadClass).stroke && r.width >= StyleOf(e.roadClass).base
  {
    var style := RoadStyle(e.roadClass, e.lanes);
    Segment(e.id, ScaledPoints(index[e.fromNode], index[e.toNode], scale), style.stroke, style.width)
  }

  lemma {:induction false} ResolvedResolve(edges: seq<Edge>, index: map<string, Point>)
    ensures forall k | 0 <= k < |Resolved(edges, index)| :: Resolves(Resolved(edges, index)[k], index)
  {
    if edges != [] {
      ResolvedResolve(edges[..|edges| - 1], index);
    }
  }

  /** `edges`: every resolving edge drawn, in input order. */
  function Segments(edges: seq<Edge>, index: map<string, Point>, scale: real): (r: seq<Segment>)
    ensures |r| == |Resolved(edges, index)|
  {
    var kept := Resolved(edges, index);
    ResolvedResolve(edges, index);
    seq(|kept|, k requires 0 <= k < |kept| => Draw(kept[k], index, scale))
  }

  /** An edge is kept exactly when it is one of the input edges and both its endpoints resolve. */
  lemma {:induction false} ResolvedMembers(edges: seq<Edge>, index: map<string, Point>, e: Edge)
    ensures e in Resolved(edges, index) <==> e in edges && Resolves(e, index)
  {
    if edges != [] {
      var init := edges[..|edges| - 1];
      ResolvedMembers(init, index, e);
      assert edges == init + [edges[|edges| - 1]];
    }
  }

  /** The filter keeps input order: it distributes over concatenation. */
  lemma {:induction false} ResolvedAppend(a: seq<Edge>, b: seq<Edge>, index: map<string, Point>)
    ensures Resolved(a + b, index) == Resolved(a, index) + Resolved(b, index)
  {
    if b != [] {
      var init := b[..|b| - 1];
      assert (a + b)[..|a + b| - 1] == a + init;
      ResolvedAppend(a, init, index);
    } else {
      assert a + b == a;
    }
  }

  /** When every endpoint resolves, nothing is dropped. */
  lemma {:induction false} ResolvedAll(edges: seq<Edge>, index: map<string, Point>)
    requires forall k | 0 <= k < |edges| :: Resolves(edges[k], index)
    ensures Resolved(edges, index) == edges
  {
    if edges != [] {
      ResolvedAll(edges[..|edges| - 1], index);
    }
  }

  /** Each drawn segment keeps its edge's id and has its endpoints' coordinates times the scale. */
  lemma SegmentsDrawEndpoints(edges: seq<Edge>, index: map<string, Point>, scale: real, k: nat)
    requires k < |Segments(edges, index, scale)|
    ensures var e := Resolved(edges, index)[k];
      && e in edges && Resolves(e, index)
      && Segments(edges, index, scale)[k].id == e.id
      && Segments(edges, index, scale)[k].points == ScaledPoints(index[e.fromNode], index[e.toNode], scale)
      && Segments(edges, index, scale)[k].width == RoadStyle(e.roadClass, e.lanes).width
  {
    var e := Resolved(edges, index)[k];
    ResolvedMembers(edges, index, e);
    ResolvedResolve(edges, index);
    assert Segments(edges, index, scale)[k] == Draw(e, index, scale);
  }

  /** When every edge names existing nodes, every edge is drawn, in order, under its own id. */
  lemma EveryEdgeDrawn(nodes: seq<Node>, edges: seq<Edge>, scale: real)
    requires forall k | 0 <= k < |edges| :: edges[k].fromNode in Ids(nodes) && edges[k].toNode in Ids(nodes)
    ensures |Segments(edges, NodeIndex(nodes), scale)| == |edges|
    ensures forall k | 0 <= k < |edges| :: Segments(edges, NodeIndex(nodes), scale)[k].id == edges[k].id
  {
    NodeIndexKeys(nodes);
    ResolvedAll(edges, NodeIndex(nodes));
  }

  lemma SegmentsStep(edges: seq<Edge>, index: map<string, Point>, scale: real, i: nat)
    requires i < |edges|
    ensures Segments(edges[..i + 1], index, scale) == Segments(edges[..i], index, scale)
      + (if Resolves(edges[i], index) then [Draw(edges[i], index, scale)] else [])
  {
    assert edges[..i + 1][..i] == edges[..i];
    var prev := Segments(edges[..i], index, scale);
    var next := Segments(edges[..i + 1], index, scale);
    var kept := Resolved(edges[..i], index);
    assert Resolved(edges[..i + 1], index) == kept + (if Resolves(edges[i], index) then [edges[i]] else []);
    forall k | 0 <= k < |prev| ensures next[k] == prev[k] {
      assert Resolved(edges[..i + 1], index)[k] == kept[k];
    }
  }

  /** The `for (const e of data.graph.edges)` loop of `edges`. */
  method DrawEdges(edges: seq<Edge>, index: map<string, Point>, scale: real) returns (list: seq<Segment>)
    ensures list == Segments(edges, index, scale)
  {
    list := [];
    for i := 0 to |edges|
      invariant list == Segments(edges[..i], index, scale)
    {
      SegmentsStep(edges, index, scale, i);
      var e := edges[i];
      if !(e.fromNode in index) || !(e.toNode in index) {
        continue;
      }
      var a, b := index[e.fromNode], index[e.toNode];
      var points := ScaledPoints(a, b, scale);
      var style := RoadStyle(e.roadClass, e.lanes);
      list := list + [Segment(e.id, points, style.stroke, style.width)];
    }
    assert edges[..|edges|] == edges;
  }

  // ---------------------------------------------------------------------
  // Reading the decoded graph

  function Num(m: map<string, Json>, k: string): Option<real>
  {
    if k in m && m[k].JNum? then Some(m[k].n) else None
  }

  function Str(m: map<string, Json>, k: string): Option<string>
  {
    if k in m && m[k].JStr? then Some(m[k].s) else None
  }

  /** A decoded graph node as the component reads it: `id`, `x`, `y`. */
  function NodeOf(v: Json): (r: Option<Node>)
    ensures r.Some? <==> v.JObj? && Str(v.fields, "id").Some? && Num(v.fields, "x").Some? && Num(v.fields, "y").Some?
  {
    if !v.JObj? then None
    else match (Str(v.fields, "id"), Num(v.fields, "x"), Num(v.fields, "y"))
      case (Some(id), Some(x), Some(y)) => Some(Node(id, x, y))
      case _ => None
  }

  /** A decoded graph edge as the component reads it: ids, endpoints, road class and lanes. */
  function EdgeOf(v: Json): (r: Option<Edge>)
    ensures r.Some? ==> v.JObj? && Str(v.fields, "road_class").Some? && ClassOf(Str(v.fields, "road_class").value) == Some(r.value.roadClass)
    ensures r.Some? ==> Str(v.fields, "from_node") == Some(r.value.fromNode) && Str(v.fields, "to_node") == Some(r.value.toNode)
  {
    if !v.JObj? then None
    else
      var rc := Str(v.fields, "road_class");
      match (Str(v.fields, "id"), Str(v.fields, "from_node"), Str(v.fields, "to_node"), Num(v.fields, "lanes"))
      case (Some(id), Some(from), Some(to), Some(lanes)) =>
        if rc.Some? && ClassOf(rc.value).Some? then Some(Edge(id, from, to, ClassOf(rc.value).value, lanes)) else None
      case _ => None
  }

  /** A required string field of an accepted object is a string in the output. */
  lemma StringFieldRead(shape: map<string, Schema>, m: map<string, Json>, out: map<string, Json>, k: string)
    requires Validate(SObject(shape, Strip), JObj(m)) == Ok(JObj(out))
    requires k in shape && shape[k] == SString(0)
    ensures Str(out, k).Some?
  {
    ObjectOutputKeys(shape, Strip, m, out);
  }

  /** A required number field of an accepted object is a number in the output. */
  lemma NumberFieldRead(shape: map<string, Schema>, m: map<string, Json>, out: map<string, Json>, k: string, checks: seq<NumCheck>)
    requires Validate(SObject(shape, Strip), JObj(m)) == Ok(JObj(out))
    requires k in shape && shape[k] == SNumber(checks)
    ensures Num(out, k).Some?
  {
    ObjectOutputKeys(shape, Strip, m, out);
    assert ValidateMissing(shape[k]).Err?;
    assert k in m;
    assert Validate(shape[k], m[k]).Ok?;
  }

  /** A required enumeration field of an accepted object is one of its options in the output. */
  lemma EnumFieldRead(shape: map<string, Schema>, m: map<string, Json>, out: map<string, Json>, k: string, options: seq<string>)
    requires Validate(SObject(shape, Strip), JObj(m)) == Ok(JObj(out))
    requires k in shape && shape[k] == SEnum(options)
    ensures Str(out, k).Some? && Str(out, k).value in options
  {
    ObjectOutputKeys(shape, Strip, m, out);
    assert ValidateMissing(shape[k]).Err?;
    assert k in m;
    assert Validate(shape[k], m[k]).Ok?;
  }

  /** Every node the schema accepts can be read. */
  lemma DecodedNodeReadable(m: map<string, Json>, out: map<string, Json>)
    requires Validate(ProtocolSchema.GraphNode, JObj(m)) == Ok(JObj(out))
    ensures NodeOf(JObj(out)).Some?
  {
    var shape := ProtocolSchema.GraphNode.shape;
    StringFieldRead(shape, m, out, "id");
    NumberFieldRead(shape, m, out, "x", []);
    NumberFieldRead(shape, m, out, "y", []);
  }

  /** Every edge the schema accepts can be read, with its road class in the style table. */
  lemma DecodedEdgeReadable(m: map<string, Json>, out: map<string, Json>)
    requires Validate(ProtocolSchema.GraphEdge, JObj(m)) == Ok(JObj(out))
    ensures EdgeOf(JObj(out)).Some?
  {
    var shape := ProtocolSchema.GraphEdge.shape;
    StringFieldRead(shape, m, out, "id");
    StringFieldRead(shape, m, out, "from_node");
    StringFieldRead(shape, m, out, "to_node");
    NumberFieldRead(shape, m, out, "lanes", [Int, Min(1.0)]);
    EnumFieldRead(shape, m, out, "road_class", ["A", "S", "GP", "G", "Z", "L", "D"]);
    StyleTableCoversRoadClass(Str(out, "road_class").value);
  }
}
