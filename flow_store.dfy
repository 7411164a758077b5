/**
 * The thought-evolution flow store (src/store/flow-store.ts): the graph's nodes and edges and the
 * node whose details are open.
 */
module FlowStore {
  import opened Wrappers
  import opened Seqs

  /** A node's payload. `label` in the source; `thought_ids` may be absent. */
  datatype NodeData = NodeData(labelText: string, summary: string, thoughtIds: Option<seq<string>>)

  /** A graph node; `type` may be absent. */
  datatype FlowNode = FlowNode(id: string, nodeType: Option<string>, data: NodeData)

  /** A graph edge; `edgeLabel` is `None` when the edge has no data or its data no label. */
  datatype FlowEdge = FlowEdge(id: string, source: string, target: string, edgeLabel: Option<string>)

  /** `nodes.find((node) => node.id === id)`. */
  function NodeWithId(nodes: seq<FlowNode>, id: string): (r: Option<FlowNode>)
    ensures r.Some? ==> r.value in nodes && r.value.id == id
    ensures r.None? <==> forall j :: 0 <= j < |nodes| ==> nodes[j].id != id
  {
    match FindFirst(nodes, (n: FlowNode) => n.id == id)
    case None => None
    case Some(i) => Some(nodes[i])
  }

  /** The first node with the id wins over later ones. */
  lemma NodeWithIdPicksFirst(nodes: seq<FlowNode>, id: string, i: nat)
    requires i < |nodes| && nodes[i].id == id
    requires forall j :: 0 <= j < i ==> nodes[j].id != id
    ensures NodeWithId(nodes, id) == Some(nodes[i])
  {
    var f := FindFirst(nodes, (n: FlowNode) => n.id == id);
    assert f.Some?;
  }

  class FlowStore {
    var nodes: seq<FlowNode>
    var edges: seq<FlowEdge>
    var currentNodeId: string
    var currentNodeData: Option<FlowNode>

    /** The open node's data, when there is one, is a node of the current graph. */
    predicate CurrentInGraph()
      reads this
    {
      currentNodeData.Some? ==> currentNodeData.value in nodes
    }

    constructor()
      ensures nodes == [] && edges == [] && currentNodeId == "" && currentNodeData == None
      ensures CurrentInGraph()
    {
      nodes := [];
      edges := [];
      currentNodeId := "";
      currentNodeData := None;
    }

    /** `setFlow`: replaces the graph; the open node is left as it was. */
    method SetFlow(newNodes: seq<FlowNode>, newEdges: seq<FlowEdge>)
      modifies this
      ensures nodes == newNodes && edges == newEdges
      ensures currentNodeId == old(currentNodeId) && currentNodeData == old(currentNodeData)
    {
      nodes := newNodes;
      edges := newEdges;
    }

    /** `clearFlow`: empties the graph; the open node is left as it was. */
    method ClearFlow()
      modifies this
      ensures nodes == [] && edges == []
      ensures currentNodeId == old(currentNodeId) && currentNodeData == old(currentNodeData)
    {
      nodes := [];
      edges := [];
    }

    /** `setCurrentNodeId`: records the id and looks the node up in the current graph. */
    method SetCurrentNodeId(nodeId: string)
      modifies this
      ensures currentNodeId == nodeId
      ensures currentNodeData == NodeWithId(nodes, nodeId)
      ensures nodes == old(nodes) && edges == old(edges)
      ensures CurrentInGraph()
      ensures currentNodeData.Some? ==> currentNodeData.value.id == nodeId
    {
      currentNodeId := nodeId;
      currentNodeData := NodeWithId(nodes, nodeId);
    }
  }

  /**
   * The open node is not looked up again when the graph changes: open a node, clear the graph,
   * and the details still show a node that is no longer in it.
   */
  method StaleNodeAfterClear(n: FlowNode) returns (store: FlowStore)
    ensures store.nodes == [] && store.currentNodeData == Some(n)
    ensures !store.CurrentInGraph()
  {
    store := new FlowStore();
    store.SetFlow([n], []);
    store.SetCurrentNodeId(n.id);
    assert NodeWithId([n], n.id) == Some(n) by {
      NodeWithIdPicksFirst([n], n.id, 0);
    }
    store.ClearFlow();
  }
}
