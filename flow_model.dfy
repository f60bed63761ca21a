/** The flow-chart records shared by the store, the editor and the read-only view:
    nodes, edges, charts and partial chart records, the node-type colour table,
    and the two ways the application reads a node's type. */
module FlowModel {
  import opened Js

  /** Node coordinates; the source's floating-point positions are taken as integers. */
  datatype Position = Position(x: int, y: int)

  /** A node's `data` object: its label (`labelText`) and the application's own node type. */
  datatype NodeData = NodeData(labelText: Option<string>, dataType: Option<string>)

  /** A React Flow node. `nodeType` is the node's `type` key. */
  datatype Node = Node(id: string, nodeType: Option<string>, position: Position,
                       data: Option<NodeData>, style: map<string, string>)

  datatype Edge = Edge(id: string, source: string, target: string, labelText: Option<string>)

  /** A stored flow chart. */
  datatype FlowChart = FlowChart(id: string, title: Option<string>, description: Option<string>,
                                 nodes: Option<seq<Node>>, edges: Option<seq<Edge>>,
                                 createdAt: string, updatedAt: string)

  /** A partial chart record, as passed to create and update and as the AI's
      function-call arguments: each key is present or absent. */
  datatype ChartFields = ChartFields(id: Option<string>, title: Option<string>, description: Option<string>,
                                     nodes: Option<seq<Node>>, edges: Option<seq<Edge>>,
                                     createdAt: Option<string>, updatedAt: Option<string>)

  /** A record holding only nodes and edges. */
  function NodesAndEdges(nodes: seq<Node>, edges: seq<Edge>): ChartFields {
    ChartFields(None, None, None, Some(nodes), Some(edges), None, None)
  }

  function Override<T>(base: T, update: Option<T>): T {
    if update.Some? then update.value else base
  }

  /** `{...chart, ...u, updatedAt: now}`: every key present in `u` wins, and the
      update time is `now`. */
  function Merge(c: FlowChart, u: ChartFields, now: string): (r: FlowChart)
    ensures r.updatedAt == now
    ensures r.id == Override(c.id, u.id) && r.createdAt == Override(c.createdAt, u.createdAt)
    ensures r.title == (if u.title.Some? then u.title else c.title)
    ensures r.description == (if u.description.Some? then u.description else c.description)
    ensures r.nodes == (if u.nodes.Some? then u.nodes else c.nodes)
    ensures r.edges == (if u.edges.Some? then u.edges else c.edges)
  {
    FlowChart(Override(c.id, u.id),
              if u.title.Some? then u.title else c.title,
              if u.description.Some? then u.description else c.description,
              if u.nodes.Some? then u.nodes else c.nodes,
              if u.edges.Some? then u.edges else c.edges,
              Override(c.createdAt, u.createdAt), now)
  }

  /** Merging is idempotent: applying the same update twice at the same time is
      the same as applying it once. */
  lemma MergeIdempotent(c: FlowChart, u: ChartFields, now: string)
    ensures Merge(Merge(c, u, now), u, now) == Merge(c, u, now)
  {
  }

  /** `{id: genId, ...data, createdAt: now, updatedAt: now}`: an `id` in the data
      replaces the generated one, while the two time stamps always come last. */
  function NewChart(data: ChartFields, genId: string, now: string): (r: FlowChart)
    ensures r.id == (if data.id.Some? then data.id.value else genId)
    ensures r.createdAt == now && r.updatedAt == now
    ensures r.title == data.title && r.description == data.description
    ensures r.nodes == data.nodes && r.edges == data.edges
  {
    FlowChart(Override(genId, data.id), data.title, data.description, data.nodes, data.edges, now, now)
  }

  // ---------------------------------------------------------------------------
  // Node types and colours

  const Green: string := "#4ade80"
  const Red: string := "#f87171"
  const Yellow: string := "#fbbf24"
  const Blue: string := "#60a5fa"
  const Orange: string := "#f97316"
  const Purple: string := "#a78bfa"

  /** The colour of a node type: five known types, purple for every other value
      and for a missing type. */
  function ColorOf(t: Option<string>): string {
    if t == Some("start") then Green
    else if t == Some("end") then Red
    else if t == Some("decision") then Yellow
    else if t == Some("process") then Blue
    else if t == Some("data") then Orange
    else Purple
  }

  /** The colour table the conditionals implement. */
  const ColorTable: map<string, string> :=
    map["start" := Green, "end" := Red, "decision" := Yellow, "process" := Blue, "data" := Orange]

  /** The chain of conditionals is a lookup in the table with purple as default,
      and the six colours are pairwise distinct, so purple means "not a known type". */
  lemma ColorOfIsTableLookup(t: Option<string>)
    ensures ColorOf(t) == (if t.Some? && t.value in ColorTable then ColorTable[t.value] else Purple)
    ensures ColorOf(t) == Purple <==> !(t.Some? && t.value in ColorTable)
  {
  }

  /** `node.data?.type`. */
  function DataTypeOf(n: Node): Option<string> {
    if n.data.Some? then n.data.value.dataType else None
  }

  /** `node.type || node.data?.type`: the React Flow type first. */
  function TypeFieldFirst(n: Node): (t: Option<string>)
    ensures Truthy(n.nodeType) ==> t == n.nodeType
    ensures !Truthy(n.nodeType) ==> t == DataTypeOf(n)
  {
    OrElse(n.nodeType, DataTypeOf(n))
  }

  /** `node.data?.type || node.type`: the application's type first. */
  function DataTypeFirst(n: Node): (t: Option<string>)
    ensures Truthy(DataTypeOf(n)) ==> t == DataTypeOf(n)
    ensures !Truthy(DataTypeOf(n)) ==> t == n.nodeType
  {
    OrElse(DataTypeOf(n), n.nodeType)
  }

  /** The two readings agree when only one of the two keys is set, and can differ
      when both are set: a node added as a start node has `type` "input". */
  lemma TypeReadingsDiffer()
    ensures var n := Node("n", Some("input"), Position(0, 0), Some(NodeData(None, Some("start"))), map[]);
      ColorOf(TypeFieldFirst(n)) == Purple && ColorOf(DataTypeFirst(n)) == Green
  {
  }

  /** Keys written over a node's style, and the value shared by every overlay. */
  function StyleOverlay(background: string, padding: string): map<string, string> {
    map["backgroundColor" := background, "color" := "#ffffff", "border" := "2px solid #ffffff",
        "borderRadius" := "8px", "padding" := padding, "fontWeight" := "500"]
  }
}
