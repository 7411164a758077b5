/**
 * The detail panel of the open graph node (src/components/explore/flow/custom/node-display.tsx).
 */
module NodeDisplay {
  import opened Wrappers
  import opened FlowStore

  datatype NodeConfig = NodeConfig(icon: string, color: string, accent: string, title: string)

  const ConnectorType := "self_reflection_connector"

  const NodeTypeConfig: map<string, NodeConfig> := map[
    "self_reflection_theme" :=
      NodeConfig("Brain", "bg-blue-50 border-blue-200 text-blue-800", "bg-blue-100 text-blue-700", "Theme"),
    "self_reflection_emotion" :=
      NodeConfig("Heart", "bg-red-50 border-red-200 text-red-800", "bg-red-100 text-red-700", "Emotion"),
    "self_reflection_goal" :=
      NodeConfig("Target", "bg-green-50 border-green-200 text-green-800", "bg-green-100 text-green-700", "Goal"),
    ConnectorType :=
      NodeConfig("Hash", "bg-gray-50 border-gray-200 text-gray-800", "bg-gray-100 text-gray-700", "Connection")]

  /** A missing or empty type reads as the connector type; an unknown type gets the connector config. */
  function ConfigFor(nodeType: Option<string>): (c: NodeConfig)
    ensures nodeType.None? || nodeType.value == "" ==> c == NodeTypeConfig[ConnectorType]
    ensures nodeType.Some? && nodeType.value in NodeTypeConfig ==> c == NodeTypeConfig[nodeType.value]
    ensures nodeType.Some? && nodeType.value !in NodeTypeConfig ==> c == NodeTypeConfig[ConnectorType]
    ensures c.title in ["Theme", "Emotion", "Goal", "Connection"]
  {
    var t := match nodeType case None => ConnectorType case Some(s) => if s == "" then ConnectorType else s;
    if t in NodeTypeConfig then NodeTypeConfig[t] else NodeTypeConfig[ConnectorType]
  }

  /** The badge title names the type; everything that is not a theme, emotion or goal is a connection. */
  lemma BadgeTitles(t: string)
    ensures ConfigFor(Some("self_reflection_theme")).title == "Theme"
    ensures ConfigFor(Some("self_reflection_emotion")).title == "Emotion"
    ensures ConfigFor(Some("self_reflection_goal")).title == "Goal"
    ensures t !in ["self_reflection_theme", "self_reflection_emotion", "self_reflection_goal"]
            ==> ConfigFor(Some(t)).title == "Connection"
  {
  }

  /** What the panel shows. */
  datatype Panel = Panel(
    config: NodeConfig,
    heading: string,
    summary: string,
    countBadge: Option<nat>,
    related: seq<(nat, string)>,
    nodeId: string)

  /** The related-thought rows `#1 .. #n`, in list order; none for a missing or empty list. */
  function RelatedRows(ids: Option<seq<string>>): (rows: seq<(nat, string)>)
    ensures ids.None? || ids.value == [] ==> rows == []
    ensures ids.Some? ==> |rows| == |ids.value|
    ensures ids.Some? ==> forall i :: 0 <= i < |rows| ==> rows[i] == (i + 1, ids.value[i])
  {
    match ids
    case None => []
    case Some(list) =>
      if |list| > 0 then seq(|list|, i requires 0 <= i < |list| => (i + 1, list[i])) else []
  }

  /**
   * The panel for the store's open node: nothing without one. The count badge appears whenever the
   * id list is present, even empty (an empty array is truthy), unlike the related list.
   */
  function Display(current: Option<FlowNode>): (p: Option<Panel>)
    ensures current.None? <==> p.None?
    ensures p.Some? ==>
      && p.value.config == ConfigFor(current.value.nodeType)
      && p.value.heading == current.value.data.labelText
      && p.value.summary == current.value.data.summary
      && p.value.nodeId == current.value.id
      && (p.value.countBadge.Some? <==> current.value.data.thoughtIds.Some?)
      && (p.value.countBadge.Some? ==> p.value.countBadge.value == |current.value.data.thoughtIds.value|)
      && p.value.related == RelatedRows(current.value.data.thoughtIds)
  {
    match current
    case None => None
    case Some(node) =>
      var data := node.data;
      var count := match data.thoughtIds case None => None case Some(ids) => Some(|ids|);
      Some(Panel(ConfigFor(node.nodeType), data.labelText, data.summary, count,
                 RelatedRows(data.thoughtIds), node.id))
  }

  /** Row numbers run from 1 upwards without gaps. */
  lemma RelatedRowsNumbered(ids: seq<string>, i: nat)
    requires i < |ids|
    ensures RelatedRows(Some(ids))[i].0 == i + 1
    ensures i > 0 ==> RelatedRows(Some(ids))[i].0 == RelatedRows(Some(ids))[i - 1].0 + 1
  {
  }

  /**
   * The close button re-targets the open node to the id "", which hides the panel unless some
   * node of the graph has the empty id.
   */
  method Close(store: FlowStore)
    modifies store
    ensures store.currentNodeId == ""
    ensures store.currentNodeData == NodeWithId(store.nodes, "")
    ensures (forall i :: 0 <= i < |store.nodes| ==> store.nodes[i].id != "") ==> Display(store.currentNodeData).None?
    ensures store.nodes == old(store.nodes) && store.edges == old(store.edges)
  {
    store.SetCurrentNodeId("");
  }
}
