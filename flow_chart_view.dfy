/** The read-only flow-chart view: each node is drawn in the colour of its type,
    read as `node.type` first, and the edges are drawn as given. */
module FlowChartView {
  import opened Js
  import opened FlowModel

  const ViewPadding: string := "10px"

  /** The node with the view's colours written over its own style. */
  function ColoredNode(n: Node): Node {
    n.(style := n.style + StyleOverlay(ColorOf(TypeFieldFirst(n)), ViewPadding))
  }

  /** `(flowchartData.nodes || []).map(...)`: one coloured node per input node, in
      order; every field but the style is kept, every style key outside the overlay
      is kept, and the overlay keys are set, the background from the node's type. */
  function NodesWithColors(nodes: Option<seq<Node>>): (r: seq<Node>)
    ensures nodes.None? ==> r == []
    ensures nodes.Some? ==> |r| == |nodes.value|
    ensures nodes.Some? ==> forall i :: 0 <= i < |r| ==>
      var n := nodes.value[i];
      && r[i] == n.(style := r[i].style)
      && r[i].style.Keys == n.style.Keys + StyleOverlay(Purple, ViewPadding).Keys
      && (forall k :: k in n.style && k !in StyleOverlay(Purple, ViewPadding) ==> r[i].style[k] == n.style[k])
      && r[i].style["backgroundColor"] == ColorOf(TypeFieldFirst(n))
      && r[i].style["padding"] == ViewPadding
  {
    Map(nodes.GetOr([]), ColoredNode)
  }

  /** `flowchartData.edges || []`. */
  function ViewEdges(edges: Option<seq<Edge>>): (r: seq<Edge>)
    ensures edges.Some? ==> r == edges.value
    ensures edges.None? ==> r == []
  {
    edges.GetOr([])
  }

  /** Drawing is idempotent: colouring already coloured nodes changes nothing. */
  lemma {:induction false} NodesWithColorsIdempotent(nodes: seq<Node>)
    ensures NodesWithColors(Some(NodesWithColors(Some(nodes)))) == NodesWithColors(Some(nodes))
  {
    var once := NodesWithColors(Some(nodes));
    var twice := NodesWithColors(Some(once));
    forall i | 0 <= i < |nodes| ensures twice[i] == once[i] {
      assert TypeFieldFirst(once[i]) == TypeFieldFirst(nodes[i]);
      assert once[i].style + StyleOverlay(ColorOf(TypeFieldFirst(nodes[i])), ViewPadding) == once[i].style;
    }
  }
}
