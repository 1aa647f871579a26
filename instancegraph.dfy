/**
 * The instance graph's display data: the nodes of the hidden views are dropped,
 * each kept node is given a colour (its view's) and a size (larger for spaces),
 * and only the links whose two ends are kept nodes remain.
 */
module InstanceGraph {
  import opened Wrappers
  import opened BuilderTab

  /** `VIEW_COLORS`: one colour per design view. */
  const ViewColors: map<string, string> := map[
    "spatial" := "#22c55e", "building" := "#f59e0b", "electrical" := "#3b82f6",
    "plumbing" := "#06b6d4", "heating" := "#ef4444", "network" := "#a855f7",
    "governance" := "#f97316", "automation" := "#ec4899"
  ]

  const DefaultColor: string := "#e5e7eb"

  /** A node as drawn: the graph node with its `_color` and `_size`. */
  datatype DisplayNode = DisplayNode(node: GraphNode, color: string, size: nat)

  datatype Processed = Processed(nodes: seq<DisplayNode>, links: seq<Link>)

  /** The node filter: hidden only when a view filter is given, the node has a view, and it is not visible. */
  predicate Shown(n: GraphNode, visibleViews: Option<set<string>>) {
    !(visibleViews.Some? && n.view != "" && n.view !in visibleViews.value)
  }

  /** `VIEW_COLORS[view] || DEFAULT_COLOR`. */
  function ColorOf(view: string): (r: string)
    ensures view in ViewColors ==> r == ViewColors[view]
    ensures view !in ViewColors ==> r == DefaultColor
    ensures r != ""
  {
    if view in ViewColors && ViewColors[view] != "" then ViewColors[view] else DefaultColor
  }

  function Decorate(n: GraphNode): DisplayNode {
    DisplayNode(n, ColorOf(n.view), if n.nodeType == "Space" then 8 else 5)
  }

  /** The shown nodes, in their original order. */
  function ShownNodes(nodes: seq<GraphNode>, visibleViews: Option<set<string>>): (r: seq<GraphNode>)
    ensures forall n :: n in r <==> n in nodes && Shown(n, visibleViews)
    ensures |r| <= |nodes|
  {
    if nodes == [] then []
    else
      var last := nodes[|nodes| - 1];
      ShownNodes(nodes[..|nodes| - 1], visibleViews) + (if Shown(last, visibleViews) then [last] else [])
  }

  /** The filter keeps order: filtering two runs of nodes concatenates their results. */
  lemma {:induction false} ShownNodesAppend(a: seq<GraphNode>, b: seq<GraphNode>, visibleViews: Option<set<string>>)
    ensures ShownNodes(a + b, visibleViews) == ShownNodes(a, visibleViews) + ShownNodes(b, visibleViews)
    decreases |b|
  {
    if b == [] {
      assert a + b == a;
    } else {
      var init, last := b[..|b| - 1], b[|b| - 1];
      assert (a + b)[..|a + b| - 1] == a + init;
      assert (a + b)[|a + b| - 1] == last;
      ShownNodesAppend(a, init, visibleViews);
      var tail := if Shown(last, visibleViews) then [last] else [];
      assert ShownNodes(a, visibleViews) + ShownNodes(init, visibleViews) + tail
        == ShownNodes(a, visibleViews) + (ShownNodes(init, visibleViews) + tail);
    }
  }

  /** `l.source?.id || l.source` looked up among the ids: an object counts by its non-empty id. */
  function EndpointId(e: Endpoint): (r: Option<string>)
    ensures e.Id? ==> r == Some(e.id)
    ensures e.Object? ==> (r.Some? <==> Present(e.objectId))
  {
    match e
    case Id(s) => Some(s)
    case Object(o) => if Present(o) then o else None
  }

  predicate Inside(e: Endpoint, ids: set<string>) {
    EndpointId(e).Some? && EndpointId(e).value in ids
  }

  /** The links whose two ends are in `ids`, in their original order. */
  function KeptLinks(links: seq<Link>, ids: set<string>): (r: seq<Link>)
    ensures forall l :: l in r <==> l in links && Inside(l.source, ids) && Inside(l.target, ids)
    ensures |r| <= |links|
  {
    if links == [] then []
    else
      var last := links[|links| - 1];
      KeptLinks(links[..|links| - 1], ids) + (if Inside(last.source, ids) && Inside(last.target, ids) then [last] else [])
  }

  /** The link filter keeps order: filtering two runs of links concatenates their results. */
  lemma {:induction false} KeptLinksAppend(a: seq<Link>, b: seq<Link>, ids: set<string>)
    ensures KeptLinks(a + b, ids) == KeptLinks(a, ids) + KeptLinks(b, ids)
    decreases |b|
  {
    if b == [] {
      assert a + b == a;
    } else {
      var init, last := b[..|b| - 1], b[|b| - 1];
      assert (a + b)[..|a + b| - 1] == a + init;
      assert (a + b)[|a + b| - 1] == last;
      KeptLinksAppend(a, init, ids);
      var tail := if Inside(last.source, ids) && Inside(last.target, ids) then [last] else [];
      assert KeptLinks(a, ids) + KeptLinks(init, ids) + tail
        == KeptLinks(a, ids) + (KeptLinks(init, ids) + tail);
    }
  }

  /** `processedData`: nothing without graph data, else the shown nodes and the links between them. */
  function ProcessedData(graphData: Option<GraphData>, visibleViews: Option<set<string>>): (r: Processed)
    ensures graphData.None? ==> r.nodes == [] && r.links == []
    ensures graphData.Some? ==> |r.nodes| == |ShownNodes(graphData.value.nodes, visibleViews)|
  {
    if graphData.None? then Processed([], [])
    else
      var shown := ShownNodes(graphData.value.nodes, visibleViews);
      var nodes := seq(|shown|, i requires 0 <= i < |shown| => Decorate(shown[i]));
      var ids := set d | d in nodes :: d.node.id;
      Processed(nodes, KeptLinks(graphData.value.links, ids))
  }

  /**
   * The drawn nodes are the shown input nodes in input order, each coloured by its
   * view (or the default colour) and sized 8 for a space, 5 otherwise.
   */
  lemma ProcessedNodes(data: GraphData, visibleViews: Option<set<string>>, i: nat)
    requires i < |ProcessedData(Some(data), visibleViews).nodes|
    ensures var d := ProcessedData(Some(data), visibleViews).nodes[i];
      && d.node == ShownNodes(data.nodes, visibleViews)[i]
      && d.node in data.nodes && Shown(d.node, visibleViews)
      && d.size == (if d.node.nodeType == "Space" then 8 else 5)
      && d.color == (if d.node.view in ViewColors then ViewColors[d.node.view] else DefaultColor)
  {
    var shown := ShownNodes(data.nodes, visibleViews);
    assert shown[i] in shown;
  }

  /** Every kept link has both ends among the drawn nodes, and every link between drawn nodes is kept. */
  lemma LinksClosed(data: GraphData, visibleViews: Option<set<string>>, l: Link)
    ensures var p := ProcessedData(Some(data), visibleViews);
      var ids := set d | d in p.nodes :: d.node.id;
      l in p.links <==> l in data.links && Inside(l.source, ids) && Inside(l.target, ids)
  {
  }

  /** The ids of the drawn nodes are exactly the ids of the shown input nodes. */
  lemma DrawnIds(data: GraphData, visibleViews: Option<set<string>>)
    ensures var p := ProcessedData(Some(data), visibleViews);
      (set d | d in p.nodes :: d.node.id) == (set n | n in data.nodes && Shown(n, visibleViews) :: n.id)
  {
    var p := ProcessedData(Some(data), visibleViews);
    var shown := ShownNodes(data.nodes, visibleViews);
    forall n | n in data.nodes && Shown(n, visibleViews)
      ensures n.id in (set d | d in p.nodes :: d.node.id)
    {
      var i :| 0 <= i < |shown| && shown[i] == n;
      assert p.nodes[i] in p.nodes;
    }
    forall d | d in p.nodes
      ensures d.node.id in (set n | n in data.nodes && Shown(n, visibleViews) :: n.id)
    {
      var i :| 0 <= i < |p.nodes| && p.nodes[i] == d;
      assert shown[i] in shown;
    }
  }

  /**
   * A record without a design view is drawn in the "other" view, which is not one
   * of the eight views: while the view filter holds only design views, such a
   * node is hidden.
   */
  lemma UnviewedRecordHidden(n: NodeRecord, visibleViews: set<string>)
    requires !Present(n.designView) && visibleViews <= AllViews
    ensures !Shown(NodeOf(n), Some(visibleViews))
  {
  }

  /** With no view filter every node is drawn. */
  lemma {:induction false} NoFilterShowsAll(nodes: seq<GraphNode>)
    ensures ShownNodes(nodes, None) == nodes
  {
    if nodes != [] {
      NoFilterShowsAll(nodes[..|nodes| - 1]);
    }
  }
}
