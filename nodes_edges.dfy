/**
 * The custom node and edge of the thought-evolution graph
 * (src/components/explore/flow/custom/nodes-edges.tsx).
 */
module NodesEdges {
  import opened Wrappers
  import opened Text
  import opened FlowStore

  datatype NodeStyle = NodeStyle(bg: string, border: string, text: string)

  const ConnectorType := "self_reflection_connector"

  const NodeTypeStyles: map<string, NodeStyle> := map[
    "self_reflection_emotion" := NodeStyle("bg-red-50", "border-red-200", "text-red-800"),
    "self_reflection_theme" := NodeStyle("bg-blue-50", "border-blue-200", "text-blue-800"),
    "self_reflection_goal" := NodeStyle("bg-green-50", "border-green-200", "text-green-800"),
    ConnectorType := NodeStyle("bg-gray-50", "border-gray-200", "text-gray-800")]

  /** `nodeTypeStyles[type] || nodeTypeStyles.self_reflection_connector`. */
  function StyleFor(nodeType: string): (r: NodeStyle)
    ensures nodeType in NodeTypeStyles ==> r == NodeTypeStyles[nodeType]
    ensures nodeType !in NodeTypeStyles ==> r == NodeTypeStyles[ConnectorType]
    ensures r in NodeTypeStyles.Values
  {
    if nodeType in NodeTypeStyles then NodeTypeStyles[nodeType] else NodeTypeStyles[ConnectorType]
  }

  /** The dot colour of the type indicator, which agrees with the style's colour family. */
  function DotColor(nodeType: string): (r: string)
    ensures nodeType == "self_reflection_emotion" ==> r == "bg-red-500"
    ensures nodeType == "self_reflection_theme" ==> r == "bg-blue-500"
    ensures nodeType == "self_reflection_goal" ==> r == "bg-green-500"
    ensures nodeType !in ["self_reflection_emotion", "self_reflection_theme", "self_reflection_goal"]
            ==> r == "bg-gray-500"
  {
    if nodeType == "self_reflection_emotion" then "bg-red-500"
    else if nodeType == "self_reflection_theme" then "bg-blue-500"
    else if nodeType == "self_reflection_goal" then "bg-green-500"
    else "bg-gray-500"
  }

  /** The dot and the card fall back together: any type without its own style gets the grey dot. */
  lemma DotFollowsStyle(nodeType: string)
    ensures StyleFor(nodeType) == NodeTypeStyles[ConnectorType] ==> DotColor(nodeType) == "bg-gray-500"
  {
  }

  /** The type shown under the card: every underscore becomes a space. */
  function TypeLabel(nodeType: string): (r: string)
    ensures |r| == |nodeType|
    ensures forall i :: 0 <= i < |r| ==> r[i] != '_'
    ensures forall i :: 0 <= i < |r| && nodeType[i] != '_' ==> r[i] == nodeType[i]
    ensures forall i :: 0 <= i < |r| && nodeType[i] == '_' ==> r[i] == ' '
  {
    ReplaceChar(nodeType, '_', ' ')
  }

  /** `data.thought_ids?.length || 0`. */
  function ThoughtCount(data: NodeData): (n: nat)
    ensures data.thoughtIds.None? ==> n == 0
    ensures data.thoughtIds.Some? ==> n == |data.thoughtIds.value|
  {
    match data.thoughtIds
    case None => 0
    case Some(ids) => |ids|
  }

  /** Clicking a card opens that node's details. */
  method NodeClicked(store: FlowStore, id: string)
    modifies store
    ensures store.currentNodeId == id
    ensures store.currentNodeData == NodeWithId(store.nodes, id)
    ensures store.nodes == old(store.nodes) && store.edges == old(store.edges)
  {
    store.SetCurrentNodeId(id);
  }

  datatype Point = Point(x: real, y: real)

  /** An SVG path of one move and one cubic Bézier segment: `M start C c1 c2 end`. */
  datatype EdgePath = EdgePath(start: Point, c1: Point, c2: Point, end: Point)

  /** The edge from the source handle to the target handle, bulging 50 units out of each. */
  function EdgePathFor(sx: real, sy: real, tx: real, ty: real): (p: EdgePath)
    ensures p.start == Point(sx, sy) && p.end == Point(tx, ty)
    ensures p.c1.y == sy && p.c1.x - sx == 50.0
    ensures p.c2.y == ty && tx - p.c2.x == 50.0
  {
    EdgePath(Point(sx, sy), Point(sx + 50.0, sy), Point(tx - 50.0, ty), Point(tx, ty))
  }

  function Translate(p: Point, dx: real, dy: real): Point {
    Point(p.x + dx, p.y + dy)
  }

  /** Moving both handles by the same amount moves the whole path by that amount. */
  lemma EdgePathTranslates(sx: real, sy: real, tx: real, ty: real, dx: real, dy: real)
    ensures var p, q := EdgePathFor(sx, sy, tx, ty), EdgePathFor(sx + dx, sy + dy, tx + dx, ty + dy);
      q == EdgePath(Translate(p.start, dx, dy), Translate(p.c1, dx, dy),
                    Translate(p.c2, dx, dy), Translate(p.end, dx, dy))
  {
  }

  datatype Rect = Rect(x: real, y: real, width: real, height: real)

  /** The clickable label box: 200 by 30, centred on the midpoint of the two handles. */
  function LabelBox(sx: real, sy: real, tx: real, ty: real): (r: Rect)
    ensures r.width == 200.0 && r.height == 30.0
    ensures r.x + r.width / 2.0 == (sx + tx) / 2.0
    ensures r.y + r.height / 2.0 == (sy + ty) / 2.0
  {
    Rect((sx + tx) / 2.0 - 100.0, (sy + ty) / 2.0 - 15.0, 200.0, 30.0)
  }

  /** `data?.label || "evolved to"`: a missing or empty label shows the default. */
  function EdgeLabel(lbl: Option<string>): (r: string)
    ensures lbl.None? || lbl.value == "" ==> r == "evolved to"
    ensures lbl.Some? && lbl.value != "" ==> r == lbl.value
    ensures r != ""
  {
    match lbl
    case None => "evolved to"
    case Some(l) => if l == "" then "evolved to" else l
  }

  datatype Circle = Circle(cx: real, cy: real, r: real)

  /** The arrow dot: radius 4, on the target's horizontal, 10 units before the target. */
  function ArrowCircle(tx: real, ty: real): (c: Circle)
    ensures c.r == 4.0 && c.cy == ty && tx - c.cx == 10.0
  {
    Circle(tx - 10.0, ty, 4.0)
  }

  /** The arrow dot sits on the final straight approach, between the last control point and the target. */
  lemma ArrowOnApproach(sx: real, sy: real, tx: real, ty: real)
    ensures var p, c := EdgePathFor(sx, sy, tx, ty), ArrowCircle(tx, ty);
      p.c2.x < c.cx < p.end.x && c.cy == p.end.y
  {
  }
}
