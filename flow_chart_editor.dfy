/** The flow-chart editor: its local copy of the active chart's nodes and edges,
    the version history of AI changes with rollback, saving to the store, adding
    nodes, node colours, and one attempt of an AI modification request together
    with its retry policy. */
module FlowChartEditor {
  import opened Js
  import opened FlowModel
  import opened FlowChartStore

  // ---------------------------------------------------------------------------
  // Version history

  /** A saved version of the chart. */
  datatype Snapshot = Snapshot(nodes: seq<Node>, edges: seq<Edge>, timestamp: nat)

  const MaxHistory: nat := 20

  /** `history.slice(0, index + 1)`, then push `s`, then drop the oldest entry
      when there are more than 20. */
  function PushCapped(history: seq<Snapshot>, index: int, s: Snapshot): (r: seq<Snapshot>)
    ensures |r| >= 1 && r[|r| - 1] == s
    ensures var kept := history[..SliceIndex(index + 1, |history|)];
      (|kept| < MaxHistory ==> r == kept + [s]) && (|kept| >= MaxHistory ==> r == kept[1..] + [s])
    ensures |history| <= MaxHistory ==> |r| <= MaxHistory
    ensures index == -1 ==> r == [s]
  {
    var newHistory := history[..SliceIndex(index + 1, |history|)] + [s];
    if |newHistory| > MaxHistory then newHistory[1..] else newHistory
  }

  /** From a valid position, every version up to the current one is kept in order
      before the new one, unless the list was full, in which case only the oldest
      goes. */
  lemma PushCappedKeepsVersionsUpToCurrent(history: seq<Snapshot>, index: int, s: Snapshot)
    requires 0 <= index < |history|
    ensures var r := PushCapped(history, index, s);
      (index + 1 < MaxHistory ==> r == history[..index + 1] + [s] && |r| == index + 2)
      && (index + 1 >= MaxHistory ==> r == history[1..index + 1] + [s])
  {
    var kept := history[..index + 1];
    assert SliceIndex(index + 1, |history|) == index + 1;
    if index + 1 >= MaxHistory {
      assert kept[1..] == history[1..index + 1];
    }
  }

  // ---------------------------------------------------------------------------
  // Chat messages

  datatype Metadata =
    | NoMetadata
    | RollbackMeta(index: nat)
    | SuccessMeta(changes: ChartFields, historyIndex: nat)
    | InfoMeta
    | ErrorMeta(attempts: Option<nat>)

  datatype ChatMessage = ChatMessage(id: nat, message: string, isUser: bool, timestamp: nat, metadata: Metadata)

  /** The reply marks as the source text spells them (mis-decoded emoji). */
  const SuccessMark: string := "\U{201A}\U{FA}\U{D6}"
  const ThinkingMark: string := "\U{F8FF}\U{FC}\U{A7}\U{EE}"
  const FailureMark: string := "\U{201A}\U{F9}\U{E5}"

  // ---------------------------------------------------------------------------
  // Node types and colours

  /** The React Flow type of an added node: `start` is an input node, `end` an
      output node, and every other type a default node. */
  function ReactFlowType(t: string): (r: string)
    ensures r == "input" <==> t == "start"
    ensures r == "output" <==> t == "end"
    ensures r != "input" && r != "output" ==> r == "default"
  {
    if t == "start" then "input" else if t == "end" then "output" else "default"
  }

  /** The argument of the editor's `getNodeColor`: a type name, a node, or `undefined`. */
  datatype ColorArg = TypeName(name: string) | NodeValue(node: Node) | Undefined

  function ArgOf(t: Option<string>): ColorArg {
    if t.Some? then TypeName(t.value) else Undefined
  }

  /** The editor's `getNodeColor`: a string is the type itself; anything else is
      read as a node, `type` before `data.type`, so `undefined` throws a TypeError
      (no colour). */
  function GetNodeColor(arg: ColorArg): (r: Option<string>)
    ensures arg.TypeName? ==> r == Some(ColorOf(Some(arg.name)))
    ensures arg.NodeValue? ==> r == Some(ColorOf(TypeFieldFirst(arg.node)))
    ensures r.None? <==> arg.Undefined?
  {
    match arg
    case TypeName(t) => Some(ColorOf(Some(t)))
    case NodeValue(n) => Some(ColorOf(TypeFieldFirst(n)))
    case Undefined => None
  }

  const EditorPadding: string := "12px"

  /** The style keys the editor writes over a node's own style. */
  const EditorKeys: set<string> :=
    {"backgroundColor", "color", "border", "borderRadius", "padding", "fontWeight", "fontSize", "minWidth", "textAlign"}

  /** The editor's style for a node of the given colour: the node's own keys and
      the editor's keys, the editor's values winning. */
  function EditorStyle(base: map<string, string>, color: string): (r: map<string, string>)
    ensures r.Keys == base.Keys + EditorKeys
    ensures r["backgroundColor"] == color && r["padding"] == EditorPadding
    ensures r["color"] == "#ffffff" && r["border"] == "2px solid #ffffff" && r["borderRadius"] == "8px"
      && r["fontWeight"] == "500" && r["fontSize"] == "14px" && r["minWidth"] == "120px" && r["textAlign"] == "center"
    ensures forall k :: k in base && k !in EditorKeys ==> r[k] == base[k]
  {
    base + StyleOverlay(color, EditorPadding) + map["fontSize" := "14px", "minWidth" := "120px", "textAlign" := "center"]
  }

  /** A node drawn in `color` by the editor: only its style changes, gaining the
      editor's keys and keeping its own other keys. */
  function Enhance(n: Node, color: string): (r: Node)
    ensures r == n.(style := r.style)
    ensures r.style.Keys == n.style.Keys + EditorKeys
    ensures r.style["backgroundColor"] == color && r.style["padding"] == EditorPadding
    ensures forall k :: k in n.style && k !in EditorKeys ==> r.style[k] == n.style[k]
  {
    n.(style := EditorStyle(n.style, color))
  }

  /** `enhancedNodes` as written: the type is read `data.type` first and handed to
      `getNodeColor`, so a node with neither key makes the whole render throw;
      wherever it draws at all, it draws what the corrected version does. */
  function EnhancedNodesAsWritten(nodes: seq<Node>): (r: Option<seq<Node>>)
    ensures r.None? <==> exists i :: 0 <= i < |nodes| && DataTypeFirst(nodes[i]).None?
    ensures r.Some? ==> r.value == EnhancedNodes(nodes)
  {
    if forall i :: 0 <= i < |nodes| ==> GetNodeColor(ArgOf(DataTypeFirst(nodes[i]))).Some? then
      Some(seq(|nodes|, i requires 0 <= i < |nodes| =>
        Enhance(nodes[i], GetNodeColor(ArgOf(DataTypeFirst(nodes[i]))).value)))
    else None
  }

  /** `enhancedNodes` with a missing type drawn in the default colour: one node per
      node, in order, each drawn in the colour of its type read `data.type` first. */
  function EnhancedNodes(nodes: seq<Node>): (r: seq<Node>)
    ensures |r| == |nodes|
    ensures forall i :: 0 <= i < |nodes| ==> r[i] == Enhance(nodes[i], ColorOf(DataTypeFirst(nodes[i])))
  {
    seq(|nodes|, i requires 0 <= i < |nodes| => Enhance(nodes[i], ColorOf(DataTypeFirst(nodes[i]))))
  }

  /** A node saved without `type` and without `data.type` stops the written render. */
  lemma UntypedNodeStopsRender(n: Node)
    requires n.nodeType.None? && DataTypeOf(n).None?
    ensures EnhancedNodesAsWritten([n]).None?
  {
    assert DataTypeFirst([n][0]).None?;
  }

  /** The corrected version draws such a node in the default colour, purple. */
  lemma UntypedNodeIsPurple(n: Node)
    requires n.nodeType.None? && DataTypeOf(n).None?
    ensures EnhancedNodes([n])[0].style["backgroundColor"] == Purple
  {
    assert DataTypeFirst([n][0]).None?;
  }

  // ---------------------------------------------------------------------------
  // Retry policy of an AI request

  /** What one attempt met: the request threw, the model called the function with
      these arguments, it answered with text only, or reading the function calls
      threw (with the text, if it could still be read). */
  datatype AttemptOutcome =
    | SendFailed(message: string)
    | Called(args: ChartFields)
    | NoCall(text: string)
    | CallFailed(fallbackText: Option<string>)

  datatype Decision = RetryAfter(delay: nat, nextCount: nat) | Finish

  const MaxRetries: nat := 3

  predicate IsRetryableError(message: string) {
    Includes(message, "rate limit") || Includes(message, "network") || Includes(message, "timeout")
    || Includes(message, "503") || Includes(message, "502") || Includes(message, "500")
  }

  /** Whether an attempt schedules another: a missing or failing function call is
      retried whatever happened, a thrown request only for a retryable message,
      and only while fewer than 3 retries were made; the delay grows by a second
      per retry. */
  function Decide(retryCount: nat, outcome: AttemptOutcome): (d: Decision)
    ensures d.RetryAfter? <==>
      (retryCount < MaxRetries
       && (outcome.NoCall? || outcome.CallFailed? || (outcome.SendFailed? && IsRetryableError(outcome.message))))
    ensures d.RetryAfter? ==> d.delay == 1000 * (retryCount + 1) && d.nextCount == retryCount + 1
  {
    var retry := RetryAfter(1000 * (retryCount + 1), retryCount + 1);
    match outcome
    case Called(_) => Finish
    case NoCall(_) => if retryCount < MaxRetries then retry else Finish
    case CallFailed(_) => if retryCount < MaxRetries then retry else Finish
    case SendFailed(m) => if IsRetryableError(m) && retryCount < MaxRetries then retry else Finish
  }

  /** The number of attempts a request makes when its attempts meet `outcomes` in turn. */
  function Attempts(retryCount: nat, outcomes: seq<AttemptOutcome>): nat
    decreases |outcomes|
  {
    if outcomes == [] then 0
    else if Decide(retryCount, outcomes[0]).RetryAfter? then 1 + Attempts(retryCount + 1, outcomes[1..])
    else 1
  }

  /** The total waiting time between those attempts. */
  function TotalDelay(retryCount: nat, outcomes: seq<AttemptOutcome>): nat
    decreases |outcomes|
  {
    if outcomes == [] then 0
    else
      var d := Decide(retryCount, outcomes[0]);
      if d.RetryAfter? && |outcomes| > 1 then d.delay + TotalDelay(retryCount + 1, outcomes[1..]) else 0
  }

  /** Whatever the outcomes, a request started at attempt `retryCount` makes at most
      `4 - retryCount` attempts: at most four in all. */
  lemma {:induction false} AtMostFourAttempts(retryCount: nat, outcomes: seq<AttemptOutcome>)
    requires retryCount <= MaxRetries
    ensures Attempts(retryCount, outcomes) <= MaxRetries + 1 - retryCount
    decreases |outcomes|
  {
    if outcomes != [] && Decide(retryCount, outcomes[0]).RetryAfter? {
      AtMostFourAttempts(retryCount + 1, outcomes[1..]);
    }
  }

  /** A service that fails every attempt with a retryable error (an overloaded
      server, say) gets exactly four attempts, one, two and three seconds apart. */
  lemma AlwaysRetryableFailure(m: string, outcomes: seq<AttemptOutcome>)
    requires IsRetryableError(m)
    requires |outcomes| >= 4
    requires forall i :: 0 <= i < |outcomes| ==> outcomes[i] == SendFailed(m)
    ensures Attempts(0, outcomes) == 4
    ensures TotalDelay(0, outcomes) == 6000
  {
    var o1, o2, o3 := outcomes[1..], outcomes[2..], outcomes[3..];
    assert o1[1..] == o2 && o2[1..] == o3;
    assert outcomes[0] == SendFailed(m) && o1[0] == outcomes[1] && o2[0] == outcomes[2] && o3[0] == outcomes[3];
    assert Attempts(3, o3) == 1 && TotalDelay(3, o3) == 0;
    assert Attempts(2, o2) == 2 && TotalDelay(2, o2) == 3000;
    assert Attempts(1, o1) == 3 && TotalDelay(1, o1) == 5000;
  }

  /** The attempt's argument as the button passes it: the handler is attached
      directly, so the first argument is the click event rather than a count. */
  datatype RetryArg = Count(n: nat) | ClickEvent

  /** Whether the attempt echoes the input, as written: `retryCount === 0`. */
  predicate EchoesAsWritten(arg: RetryArg) {
    arg == Count(0)
  }

  /** The retry decision as written: `retryCount < maxRetries` is false for an event
      object (its numeric value is NaN), so an attempt started from the button never
      schedules a retry. */
  function DecideAsWritten(arg: RetryArg, outcome: AttemptOutcome): (d: Decision)
    ensures arg.Count? ==> d == Decide(arg.n, outcome)
    ensures arg.ClickEvent? ==> d == Finish
  {
    match arg
    case Count(n) => Decide(n, outcome)
    case ClickEvent => Finish
  }

  /** A send from the button neither echoes the user's text nor retries a text-only
      answer, while the Enter key (count 0) does both. */
  lemma ButtonSendSkipsEchoAndRetry(text: string)
    ensures !EchoesAsWritten(ClickEvent) && DecideAsWritten(ClickEvent, NoCall(text)) == Finish
    ensures EchoesAsWritten(Count(0)) && Decide(0, NoCall(text)) == RetryAfter(1000, 1)
  {
  }

  /** The assistant's reply to an attempt that does not retry, if it gives one. */
  datatype Reply = Reply(message: string, metadata: Metadata)

  function ReplyTo(retryCount: nat, outcome: AttemptOutcome, historyLength: nat): (r: Option<Reply>)
    ensures Decide(retryCount, outcome).RetryAfter? <==> r.None?
    ensures outcome.SendFailed? && r.Some? ==> r.value.metadata == ErrorMeta(Some(retryCount + 1))
    ensures outcome.Called? ==> r.Some? && r.value.metadata == SuccessMeta(outcome.args, historyLength)
  {
    if Decide(retryCount, outcome).RetryAfter? then None
    else
      match outcome
      case Called(args) =>
        Some(Reply(SuccessMark + " Flowchart updated successfully! Modified "
                   + NatToString(|args.nodes.GetOr([])|) + " nodes and "
                   + NatToString(|args.edges.GetOr([])|) + " connections.",
                   SuccessMeta(args, historyLength)))
      case NoCall(text) =>
        Some(Reply(ThinkingMark + " AI responded with text: \"" + text
                   + "\". I'll try to understand your request better next time.", InfoMeta))
      case CallFailed(fallback) =>
        if fallback.Some? then
          Some(Reply(FailureMark + " Failed to modify flowchart after 4 attempts. AI said: \""
                     + fallback.value + "\"", ErrorMeta(None)))
        else
          Some(Reply(FailureMark + " AI request failed completely after 4 attempts. "
                     + "Please try again with a different request.", ErrorMeta(None)))
      case SendFailed(m) =>
        Some(Reply(FailureMark + " Communication error: " + m, ErrorMeta(Some(retryCount + 1))))
  }

  function Echo(retryCount: nat, input: string, now: nat): seq<ChatMessage> {
    if retryCount == 0 then [ChatMessage(now, input, true, now, NoMetadata)] else []
  }

  function ReplyMessages(r: Option<Reply>, now: nat): seq<ChatMessage> {
    if r.Some? then [ChatMessage(now, r.value.message, false, now, r.value.metadata)] else []
  }

  /** The history after the deferred save, as written: the callback runs the save
      function of the render in which the request started, so its newest version
      holds the nodes and edges from before the AI change, whatever the AI returned;
      the versions before it are the ones up to the current index, less the oldest
      when the list was full. */
  function DeferredSaveAsWritten(history: seq<Snapshot>, index: int, entryNodes: seq<Node>,
                                 entryEdges: seq<Edge>, now: nat): (r: seq<Snapshot>)
    ensures |r| >= 1 && r[|r| - 1] == Snapshot(entryNodes, entryEdges, now)
    ensures var kept := history[..SliceIndex(index + 1, |history|)];
      r[..|r| - 1] == if |kept| < MaxHistory then kept else kept[1..]
    ensures forall aiNodes: seq<Node>, aiEdges: seq<Edge> :: aiNodes != entryNodes ==>
      r != PushCapped(history, index, Snapshot(aiNodes, aiEdges, now))
  {
    PushCapped(history, index, Snapshot(entryNodes, entryEdges, now))
  }

  /** Starting from one saved version of an empty chart, an AI change that adds a node
      is recorded as a second copy of the empty chart. */
  lemma DeferredSaveRecordsOldVersion(n: Node)
    ensures var before := [Snapshot([], [], 0)];
      var r := DeferredSaveAsWritten(before, 0, [], [], 1);
      r == [Snapshot([], [], 0), Snapshot([], [], 1)] && r[|r| - 1].nodes != [n]
  {
    assert SliceIndex(1, 1) == 1;
  }

  // ---------------------------------------------------------------------------
  // The editor

  function NodesOf(c: Option<FlowChart>): seq<Node> {
    if c.Some? && c.value.nodes.Some? then c.value.nodes.value else []
  }

  function EdgesOf(c: Option<FlowChart>): seq<Edge> {
    if c.Some? && c.value.edges.Some? then c.value.edges.value else []
  }

  class Editor {
    const store: Store
    var nodes: seq<Node>
    var edges: seq<Edge>
    var isModified: bool
    var aiInput: string
    var aiLoading: bool
    var chatHistory: seq<ChatMessage>
    var flowchartHistory: seq<Snapshot>
    var currentHistoryIndex: int

    /** The history index points at a saved version, or is -1 before the first one,
        and at most 20 versions are kept. */
    ghost predicate Valid()
      reads this
    {
      ((flowchartHistory == [] && currentHistoryIndex == -1)
       || 0 <= currentHistoryIndex < |flowchartHistory|)
      && |flowchartHistory| <= MaxHistory
    }

    predicate GuardPasses()
      reads this
    {
      !IsBlank(aiInput) && !aiLoading
    }

    constructor(s: Store)
      ensures Valid() && store == s
      ensures nodes == NodesOf(s.ActiveFlowChart()) && edges == EdgesOf(s.ActiveFlowChart())
      ensures !isModified && aiInput == "" && !aiLoading
      ensures chatHistory == [] && flowchartHistory == [] && currentHistoryIndex == -1
    {
      store := s;
      nodes, edges := NodesOf(s.ActiveFlowChart()), EdgesOf(s.ActiveFlowChart());
      isModified, aiInput, aiLoading := false, "", false;
      chatHistory, flowchartHistory, currentHistoryIndex := [], [], -1;
    }

    /** The effect run when the active chart changes: the local copy is replaced by
        the chart's nodes and edges, and an empty history starts with that version
        when the chart has any node or edge. */
    method SyncWithActiveChart(now: nat)
      requires Valid()
      modifies this
      ensures Valid()
      ensures var active := old(store.ActiveFlowChart());
        if active.None? then unchanged(this)
        else
          nodes == NodesOf(active) && edges == EdgesOf(active) && !isModified
          && aiInput == old(aiInput) && aiLoading == old(aiLoading) && chatHistory == old(chatHistory)
          && (if old(flowchartHistory) == [] && (|nodes| > 0 || |edges| > 0)
              then flowchartHistory == [Snapshot(nodes, edges, now)] && currentHistoryIndex == 0
              else flowchartHistory == old(flowchartHistory) && currentHistoryIndex == old(currentHistoryIndex))
    {
      var active := store.ActiveFlowChart();
      if active.Some? {
        nodes, edges, isModified := NodesOf(active), EdgesOf(active), false;
        if |flowchartHistory| == 0 && (|nodes| > 0 || |edges| > 0) {
          flowchartHistory, currentHistoryIndex := [Snapshot(nodes, edges, now)], 0;
        }
      }
    }

    /** `saveChanges`: only with an active chart and unsaved changes are the nodes
        and edges written to the store, and then the changes count as saved. */
    method SaveChanges(now: string)
      modifies this, store
      ensures old(store.ActiveFlowChart()).Some? && old(isModified) ==>
        !isModified && store.flowCharts ==
          (if Truthy(old(store.activeFlowChartId))
           then UpdateCharts(old(store.flowCharts), old(store.activeFlowChartId).value, NodesAndEdges(nodes, edges), now)
           else old(store.flowCharts))
      ensures !(old(store.ActiveFlowChart()).Some? && old(isModified)) ==>
        isModified == old(isModified) && store.flowCharts == old(store.flowCharts)
      ensures nodes == old(nodes) && edges == old(edges) && aiInput == old(aiInput) && aiLoading == old(aiLoading)
      ensures chatHistory == old(chatHistory) && flowchartHistory == old(flowchartHistory)
      ensures currentHistoryIndex == old(currentHistoryIndex)
      ensures store.activeFlowChartId == old(store.activeFlowChartId) && store.isEditorOpen == old(store.isEditorOpen)
    {
      if store.ActiveFlowChart().Some? && isModified {
        store.UpdateActiveFlowChart(NodesAndEdges(nodes, edges), now);
        isModified := false;
      }
    }

    /** `saveAIChangeToHistory`: versions after the current one are dropped, the
        current nodes and edges become the newest version, and it is current. */
    method SaveAIChangeToHistory(now: nat)
      requires Valid()
      modifies this
      ensures Valid()
      ensures flowchartHistory == PushCapped(old(flowchartHistory), old(currentHistoryIndex), Snapshot(nodes, edges, now))
      ensures currentHistoryIndex == |flowchartHistory| - 1
      ensures flowchartHistory[currentHistoryIndex] == Snapshot(nodes, edges, now)
      ensures nodes == old(nodes) && edges == old(edges) && isModified == old(isModified)
      ensures aiInput == old(aiInput) && aiLoading == old(aiLoading) && chatHistory == old(chatHistory)
    {
      flowchartHistory := PushCapped(flowchartHistory, currentHistoryIndex, Snapshot(nodes, edges, now));
      currentHistoryIndex := |flowchartHistory| - 1;
    }

    /** `addChatMessage`. */
    method AddChatMessage(message: string, isUser: bool, metadata: Metadata, now: nat)
      modifies this
      ensures chatHistory == old(chatHistory) + [ChatMessage(now, message, isUser, now, metadata)]
      ensures nodes == old(nodes) && edges == old(edges) && isModified == old(isModified)
      ensures aiInput == old(aiInput) && aiLoading == old(aiLoading)
      ensures flowchartHistory == old(flowchartHistory) && currentHistoryIndex == old(currentHistoryIndex)
    {
      chatHistory := chatHistory + [ChatMessage(now, message, isUser, now, metadata)];
    }

    /** `rollbackToState`: for a saved version, its nodes and edges are restored, it
        becomes current, the editor counts as modified and one rollback message is
        added; any other index changes nothing. */
    method RollbackToState(index: int, now: nat)
      requires Valid()
      modifies this
      ensures Valid()
      ensures 0 <= index < |old(flowchartHistory)| ==>
        nodes == old(flowchartHistory)[index].nodes && edges == old(flowchartHistory)[index].edges
        && currentHistoryIndex == index && isModified
        && chatHistory == old(chatHistory)
             + [ChatMessage(now, "Rolled back to version " + NatToString(index + 1), false, now, RollbackMeta(index))]
      ensures !(0 <= index < |old(flowchartHistory)|) ==> unchanged(this)
      ensures flowchartHistory == old(flowchartHistory) && aiInput == old(aiInput) && aiLoading == old(aiLoading)
    {
      if 0 <= index < |flowchartHistory| {
        var state := flowchartHistory[index];
        nodes, edges := state.nodes, state.edges;
        currentHistoryIndex := index;
        isModified := true;
        AddChatMessage("Rolled back to version " + NatToString(index + 1), false, RollbackMeta(index), now);
      }
    }

    /** `handleClose`: unsaved changes are saved first, then the editor closes. */
    method HandleClose(now: string)
      modifies this, store
      ensures !store.isEditorOpen
      ensures old(store.ActiveFlowChart()).Some? && old(isModified) ==>
        !isModified && store.flowCharts ==
          (if Truthy(old(store.activeFlowChartId))
           then UpdateCharts(old(store.flowCharts), old(store.activeFlowChartId).value, NodesAndEdges(nodes, edges), now)
           else old(store.flowCharts))
      ensures !(old(store.ActiveFlowChart()).Some? && old(isModified)) ==>
        isModified == old(isModified) && store.flowCharts == old(store.flowCharts)
      ensures store.activeFlowChartId == old(store.activeFlowChartId)
      ensures nodes == old(nodes) && edges == old(edges) && flowchartHistory == old(flowchartHistory)
      ensures chatHistory == old(chatHistory) && aiInput == old(aiInput) && aiLoading == old(aiLoading)
      ensures currentHistoryIndex == old(currentHistoryIndex)
    {
      if isModified {
        SaveChanges(now);
      }
      store.CloseEditor();
    }

    /** `addNode`: appends one node with the React Flow type for `t`, the
        application type `t` in its data, the label "New " + `t` and the colour of `t`. */
    method AddNode(t: string, now: nat, x: int, y: int)
      modifies this
      ensures |nodes| == |old(nodes)| + 1 && nodes[..|old(nodes)|] == old(nodes)
      ensures var n := nodes[|nodes| - 1];
        n.id == "node-" + NatToString(now) && n.nodeType == Some(ReactFlowType(t))
        && n.position == Position(x, y) && n.data == Some(NodeData(Some("New " + t), Some(t)))
        && n.style == StyleOverlay(ColorOf(Some(t)), EditorPadding)
        && (t != "" ==> DataTypeFirst(n) == Some(t))
      ensures isModified
      ensures edges == old(edges) && chatHistory == old(chatHistory) && flowchartHistory == old(flowchartHistory)
      ensures currentHistoryIndex == old(currentHistoryIndex) && aiInput == old(aiInput) && aiLoading == old(aiLoading)
    {
      var color := GetNodeColor(TypeName(t));
      var newNode := Node("node-" + NatToString(now), Some(ReactFlowType(t)), Position(x, y),
                          Some(NodeData(Some("New " + t), Some(t))), StyleOverlay(color.value, EditorPadding));
      nodes := nodes + [newNode];
      isModified := true;
    }

    /** `handleNewFlowChart`: a new empty chart is created in the store and the
        editor is emptied. */
    method HandleNewFlowChart(genId: string, now: string)
      requires Valid()
      modifies this, store
      ensures Valid()
      ensures var data := ChartFields(None, Some("New Flow Chart"), Some("A new flow chart"), Some([]), Some([]), None, None);
        store.flowCharts == old(store.flowCharts) + [NewChart(data, genId, now)]
        && store.activeFlowChartId == Some(genId)
      ensures store.isEditorOpen == old(store.isEditorOpen)
      ensures nodes == [] && edges == [] && !isModified
      ensures flowchartHistory == old(flowchartHistory) && chatHistory == old(chatHistory)
      ensures currentHistoryIndex == old(currentHistoryIndex) && aiInput == old(aiInput) && aiLoading == old(aiLoading)
    {
      var data := ChartFields(None, Some("New Flow Chart"), Some("A new flow chart"), Some([]), Some([]), None, None);
      var _ := store.CreateFlowChart(data, genId, now);
      nodes, edges, isModified := [], [], false;
    }

    /** The function-call branch of an attempt: the call's nodes and edges (empty when
        absent) replace the editor's, the new version is recorded and made current,
        and the active chart, when there is one, takes the call's arguments. */
    method ApplyFunctionCall(args: ChartFields, now: nat, nowIso: string)
      requires Valid()
      modifies this, store
      ensures Valid()
      ensures nodes == args.nodes.GetOr([]) && edges == args.edges.GetOr([]) && isModified
      ensures flowchartHistory == PushCapped(old(flowchartHistory), old(currentHistoryIndex), Snapshot(nodes, edges, now))
      ensures flowchartHistory[currentHistoryIndex] == Snapshot(nodes, edges, now)
      ensures store.flowCharts ==
        (if old(store.ActiveFlowChart()).Some? && Truthy(old(store.activeFlowChartId))
         then UpdateCharts(old(store.flowCharts), old(store.activeFlowChartId).value, args, nowIso)
         else old(store.flowCharts))
      ensures store.activeFlowChartId == old(store.activeFlowChartId) && store.isEditorOpen == old(store.isEditorOpen)
      ensures aiInput == old(aiInput) && aiLoading == old(aiLoading) && chatHistory == old(chatHistory)
    {
      nodes, edges, isModified := args.nodes.GetOr([]), args.edges.GetOr([]), true;
      SaveAIChangeToHistory(now);
      if store.ActiveFlowChart().Some? {
        store.UpdateActiveFlowChart(args, nowIso);
      }
    }

    /** The deferred save as written: the captured nodes and edges become the newest
        version, and it is current. */
    method SaveCapturedToHistory(entryNodes: seq<Node>, entryEdges: seq<Edge>, now: nat)
      requires Valid()
      modifies this
      ensures Valid()
      ensures flowchartHistory == DeferredSaveAsWritten(old(flowchartHistory), old(currentHistoryIndex), entryNodes, entryEdges, now)
      ensures currentHistoryIndex == |flowchartHistory| - 1
      ensures flowchartHistory[currentHistoryIndex] == Snapshot(entryNodes, entryEdges, now)
      ensures nodes == old(nodes) && edges == old(edges) && isModified == old(isModified)
      ensures aiInput == old(aiInput) && aiLoading == old(aiLoading) && chatHistory == old(chatHistory)
    {
      flowchartHistory := DeferredSaveAsWritten(flowchartHistory, currentHistoryIndex, entryNodes, entryEdges, now);
      currentHistoryIndex := |flowchartHistory| - 1;
    }

    /** The function-call branch as written: the same as `ApplyFunctionCall`, except
        that the version recorded by the deferred save is the one from before the
        call, so when the call changes the nodes the newest version does not hold
        the nodes now shown. */
    method ApplyFunctionCallAsWritten(args: ChartFields, now: nat, nowIso: string)
      requires Valid()
      modifies this, store
      ensures Valid()
      ensures nodes == args.nodes.GetOr([]) && edges == args.edges.GetOr([]) && isModified
      ensures flowchartHistory == DeferredSaveAsWritten(old(flowchartHistory), old(currentHistoryIndex), old(nodes), old(edges), now)
      ensures flowchartHistory[currentHistoryIndex] == Snapshot(old(nodes), old(edges), now)
      ensures nodes != old(nodes) ==> flowchartHistory[currentHistoryIndex].nodes != nodes
      ensures store.flowCharts ==
        (if old(store.ActiveFlowChart()).Some? && Truthy(old(store.activeFlowChartId))
         then UpdateCharts(old(store.flowCharts), old(store.activeFlowChartId).value, args, nowIso)
         else old(store.flowCharts))
      ensures store.activeFlowChartId == old(store.activeFlowChartId) && store.isEditorOpen == old(store.isEditorOpen)
      ensures aiInput == old(aiInput) && aiLoading == old(aiLoading) && chatHistory == old(chatHistory)
    {
      var entryNodes, entryEdges := nodes, edges;
      nodes, edges, isModified := args.nodes.GetOr([]), args.edges.GetOr([]), true;
      SaveCapturedToHistory(entryNodes, entryEdges, now);
      if store.ActiveFlowChart().Some? {
        store.UpdateActiveFlowChart(args, nowIso);
      }
    }

    /** The echo of the first attempt: the input as the user's message. */
    method EchoInput(retryCount: nat, now: nat)
      modifies this
      ensures chatHistory == old(chatHistory) + Echo(retryCount, aiInput, now)
      ensures nodes == old(nodes) && edges == old(edges) && isModified == old(isModified)
      ensures aiInput == old(aiInput) && aiLoading == old(aiLoading)
      ensures flowchartHistory == old(flowchartHistory) && currentHistoryIndex == old(currentHistoryIndex)
    {
      if retryCount == 0 {
        AddChatMessage(aiInput, true, NoMetadata, now);
      }
    }

    /** The end of an attempt that does not retry: its reply is added and the input
        is cleared. */
    method Conclude(reply: Option<Reply>, now: nat)
      modifies this
      ensures chatHistory == old(chatHistory) + ReplyMessages(reply, now)
      ensures aiInput == (if reply.Some? then "" else old(aiInput))
      ensures nodes == old(nodes) && edges == old(edges) && isModified == old(isModified) && aiLoading == old(aiLoading)
      ensures flowchartHistory == old(flowchartHistory) && currentHistoryIndex == old(currentHistoryIndex)
    {
      if reply.Some? {
        AddChatMessage(reply.value.message, false, reply.value.metadata, now);
        aiInput := "";
      }
    }

    /** One attempt of `handleAiRequest` that meets `outcome`. A blank input or a
        request in flight makes it a no-op. Otherwise the input is echoed on the
        first attempt only; a function call replaces the nodes and edges, records
        the new version, updates the active chart and reports the counts; the attempt
        then either hands back the retry it schedules, or gives its reply and clears
        the input. The loading flag is cleared at the end of every attempt, also one
        that schedules a retry, because the `finally` test reads the flag as it was
        when the attempt began. */
    method HandleAiRequest(retryCount: nat, outcome: AttemptOutcome, now: nat, nowIso: string)
      returns (next: Decision)
      requires Valid()
      modifies this, store
      ensures Valid()
      ensures !old(GuardPasses()) ==> next == Finish && unchanged(this) && unchanged(store)
      ensures old(GuardPasses()) ==>
        next == Decide(retryCount, outcome) && !aiLoading
        && chatHistory == old(chatHistory) + Echo(retryCount, old(aiInput), now)
             + ReplyMessages(ReplyTo(retryCount, outcome, |old(flowchartHistory)|), now)
        && aiInput == (if next.Finish? then "" else old(aiInput))
      ensures old(GuardPasses()) && outcome.Called? ==>
        nodes == outcome.args.nodes.GetOr([]) && edges == outcome.args.edges.GetOr([]) && isModified
        && flowchartHistory == PushCapped(old(flowchartHistory), old(currentHistoryIndex), Snapshot(nodes, edges, now))
        && flowchartHistory[currentHistoryIndex] == Snapshot(nodes, edges, now)
        && store.flowCharts ==
             (if old(store.ActiveFlowChart()).Some? && Truthy(old(store.activeFlowChartId))
              then UpdateCharts(old(store.flowCharts), old(store.activeFlowChartId).value, outcome.args, nowIso)
              else old(store.flowCharts))
      ensures old(GuardPasses()) && !outcome.Called? ==>
        nodes == old(nodes) && edges == old(edges) && isModified == old(isModified)
        && flowchartHistory == old(flowchartHistory) && currentHistoryIndex == old(currentHistoryIndex)
        && store.flowCharts == old(store.flowCharts)
      ensures store.activeFlowChartId == old(store.activeFlowChartId) && store.isEditorOpen == old(store.isEditorOpen)
    {
      if IsBlank(aiInput) || aiLoading {
        return Finish;
      }
      var entryHistoryLength := |flowchartHistory|;
      EchoInput(retryCount, now);
      aiLoading := true;
      next := Decide(retryCount, outcome);
      if outcome.Called? {
        ApplyFunctionCall(outcome.args, now, nowIso);
      }
      Conclude(ReplyTo(retryCount, outcome, entryHistoryLength), now);
      aiLoading := false;
    }
  }
}
