/**
 * The flow search box (src/components/explore/flow/thought-flow.tsx): the typed text becomes the
 * query on Enter, a non-empty query enables the flow request, and arriving data goes to the store.
 */
module ThoughtFlow {
  import opened Wrappers
  import opened FlowStore

  /** The response body of the flow endpoint. */
  datatype FlowData = FlowData(nodes: seq<FlowNode>, edges: seq<FlowEdge>)

  /** The request runs only for a non-empty query (`enabled: !!searchQuery`). */
  predicate FetchEnabled(searchQuery: string) {
    searchQuery != ""
  }

  /** The `message` of the request body: the query turned into a question. */
  function RequestMessage(searchQuery: string): (m: string)
    ensures |m| == |searchQuery| + 1
    ensures m[..|searchQuery|] == searchQuery && m[|searchQuery|] == '?'
  {
    searchQuery + "?"
  }

  class ThoughtFlowSearch {
    var inputValue: string
    var searchQuery: string

    constructor()
      ensures inputValue == "" && searchQuery == "" && !FetchEnabled(searchQuery)
    {
      inputValue := "";
      searchQuery := "";
    }

    method HandleInputChange(value: string)
      modifies this
      ensures inputValue == value && searchQuery == old(searchQuery)
    {
      inputValue := value;
    }

    /** Enter hands the typed text over to the query and empties the box; other keys do nothing. */
    method HandleKeyDown(key: string)
      modifies this
      ensures key == "Enter" ==> searchQuery == old(inputValue) && inputValue == ""
      ensures key != "Enter" ==> unchanged(this)
    {
      if key == "Enter" {
        searchQuery := inputValue;
        inputValue := "";
      }
    }

    /** The clear button empties both, which also disables the request. */
    method HandleClear()
      modifies this
      ensures inputValue == "" && searchQuery == ""
      ensures !FetchEnabled(searchQuery)
    {
      inputValue := "";
      searchQuery := "";
    }
  }

  /** The effect on new query data: a present response replaces the store's graph. */
  method OnFlowData(store: FlowStore, flowData: Option<FlowData>)
    modifies store
    ensures flowData.Some? ==> store.nodes == flowData.value.nodes && store.edges == flowData.value.edges
    ensures flowData.None? ==> unchanged(store)
    ensures store.currentNodeId == old(store.currentNodeId)
    ensures store.currentNodeData == old(store.currentNodeData)
  {
    if flowData.Some? {
      store.SetFlow(flowData.value.nodes, flowData.value.edges);
    }
  }
}
