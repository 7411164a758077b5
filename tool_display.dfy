/** The tool-call badges under a chat message (src/components/chat/tool-display.tsx). */
module ToolDisplay {
  import opened Wrappers

  /** The readable names of the three backend tools; any other tool shows its raw name. */
  const ToolInvocationNames: map<string, string> := map[
    "tavily_search" := "Web Search",
    "fetch_relevant_thoughts" := "Relevant Thoughts",
    "get_thought_details" := "Thought Details"]

  datatype ToolArgs = ToolArgs(query: Option<string>)

  datatype ToolInvocation = ToolInvocation(
    toolCallId: string,
    toolName: string,
    state: string,
    args: Option<ToolArgs>)

  /** A message part: a tool invocation, or any other kind (text, reasoning, ...). */
  datatype MessagePart =
    | ToolInvocationPart(invocation: ToolInvocation)
    | OtherPart(partType: string)

  /** What one badge shows. */
  datatype Badge = Badge(
    key: string,
    displayName: string,
    pendingDot: bool,
    queryText: Option<string>,
    doneDot: bool)

  function DisplayName(toolName: string): (r: string)
    ensures toolName in ToolInvocationNames ==> r == ToolInvocationNames[toolName]
    ensures toolName !in ToolInvocationNames ==> r == toolName
  {
    if toolName in ToolInvocationNames then ToolInvocationNames[toolName] else toolName
  }

  /** The three mapped names are distinct, so the badge tells the known tools apart. */
  lemma KnownToolNamesDistinct(a: string, b: string)
    requires a in ToolInvocationNames && b in ToolInvocationNames && a != b
    ensures DisplayName(a) != DisplayName(b)
  {
  }

  /** One badge: the name, a pending dot while calling, a done dot with the result, and the search query. */
  function ToolBadge(inv: ToolInvocation): (b: Badge)
    ensures b.key == inv.toolCallId && b.displayName == DisplayName(inv.toolName)
    ensures b.pendingDot <==> inv.state == "call"
    ensures b.doneDot <==> inv.state == "result"
    ensures !(b.pendingDot && b.doneDot)
    ensures b.queryText.Some? ==>
      inv.toolName == "tavily_search" && inv.state == "call" && inv.args.Some? && inv.args.value.query == b.queryText
  {
    var showQuery := inv.toolName == "tavily_search" && inv.state == "call" && inv.args.Some?;
    Badge(inv.toolCallId, DisplayName(inv.toolName), inv.state == "call",
          if showQuery then inv.args.value.query else None, inv.state == "result")
  }

  /** `message.parts?.map(...)`: a badge per tool-invocation part, nothing for any other part. */
  function ToolBadges(parts: Option<seq<MessagePart>>): (r: seq<Option<Badge>>)
    ensures parts.None? ==> r == []
    ensures parts.Some? ==> |r| == |parts.value|
    ensures parts.Some? ==> forall i :: 0 <= i < |r| ==>
      (r[i].Some? <==> parts.value[i].ToolInvocationPart?)
      && (r[i].Some? ==> r[i].value == ToolBadge(parts.value[i].invocation))
  {
    match parts
    case None => []
    case Some(ps) =>
      seq(|ps|, i requires 0 <= i < |ps| =>
        match ps[i]
        case ToolInvocationPart(inv) => Some(ToolBadge(inv))
        case OtherPart(_) => None)
  }

  /** A search badge shows its query exactly while the call is pending and arguments are present. */
  lemma SearchQueryShownWhilePending(inv: ToolInvocation)
    requires inv.toolName == "tavily_search" && inv.args.Some?
    ensures ToolBadge(inv).queryText == (if inv.state == "call" then inv.args.value.query else None)
  {
  }
}
