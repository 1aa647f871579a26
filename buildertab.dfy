/**
 * The builder tab's data helpers: smart-home node records fetched from the
 * backend become a force-graph (one node per record, one containment link per
 * record with a parent), the view filter is a set of view names toggled one at a
 * time, and assigning or unassigning a catalogue item rewrites one record.
 */
module BuilderTab {
  import opened Wrappers

  /** The eight design views, all visible at first. */
  const AllViews: set<string> := {
    "spatial", "building", "electrical", "plumbing",
    "heating", "network", "governance", "automation"
  }

  /** A catalogue item; only its id matters here, the rest is carried along. */
  datatype CatalogItem = CatalogItem(id: string, details: string)

  /** A SmartHomeNode record; absent (null) attributes are `None`. */
  datatype NodeRecord = NodeRecord(
    id: string, nodeId: string, nodeLabel: string, nodeType: string,
    designView: Option<string>, parentNodeId: Option<string>, linkType: Option<string>,
    catalogItemId: Option<string>, catalogItem: Option<CatalogItem>, properties: string)

  /** A link end: an id string, or the node object the graph library puts in its place. */
  datatype Endpoint = Id(id: string) | Object(objectId: Option<string>)

  datatype GraphNode = GraphNode(
    id: string, nodeId: string, nodeLabel: string, nodeType: string, view: string,
    designView: Option<string>, catalogItemId: Option<string>, catalogItem: Option<CatalogItem>,
    properties: string)

  datatype Link = Link(source: Endpoint, target: Endpoint, linkType: string)

  datatype GraphData = GraphData(nodes: seq<GraphNode>, links: seq<Link>)

  /** JavaScript truthiness of an optional string: present and non-empty. */
  predicate Present(s: Option<string>) {
    s.Some? && s.value != ""
  }

  /** `s || fallback` on an optional string. */
  function OrElse(s: Option<string>, fallback: string): (r: string)
    ensures Present(s) ==> Some(r) == s
    ensures !Present(s) ==> r == fallback
  {
    if Present(s) then s.value else fallback
  }

  /** The node drawn for one record: its identity copied, its view defaulting to "other". */
  function NodeOf(n: NodeRecord): (g: GraphNode)
    ensures g.id == n.id && g.nodeId == n.nodeId && g.nodeLabel == n.nodeLabel && g.nodeType == n.nodeType
    ensures g.view == OrElse(n.designView, "other") && g.designView == n.designView
    ensures g.view != ""
  {
    GraphNode(n.id, n.nodeId, n.nodeLabel, n.nodeType, OrElse(n.designView, "other"),
      n.designView, n.catalogItemId, n.catalogItem, n.properties)
  }

  /** The containment link of a record with a parent: parent to child. */
  function LinkOf(n: NodeRecord): Link
    requires Present(n.parentNodeId)
  {
    Link(Id(n.parentNodeId.value), Id(n.id), OrElse(n.linkType, "contains"))
  }

  /** The links of `records`, in record order. */
  function Links(records: seq<NodeRecord>): (r: seq<Link>)
    ensures |r| <= |records|
  {
    if records == [] then []
    else
      var last := records[|records| - 1];
      Links(records[..|records| - 1]) + (if Present(last.parentNodeId) then [LinkOf(last)] else [])
  }

  lemma LinksSnoc(records: seq<NodeRecord>, i: nat)
    requires i < |records|
    ensures Links(records[..i + 1])
      == Links(records[..i]) + (if Present(records[i].parentNodeId) then [LinkOf(records[i])] else [])
  {
    assert records[..i + 1][..i] == records[..i];
  }

  /** `buildGraphData`: the node `map`, then the link loop. */
  method BuildGraphData(records: seq<NodeRecord>) returns (data: GraphData)
    ensures |data.nodes| == |records|
    ensures forall i :: 0 <= i < |records| ==> data.nodes[i] == NodeOf(records[i])
    ensures data.links == Links(records)
  {
    var nodes := seq(|records|, i requires 0 <= i < |records| => NodeOf(records[i]));
    var links := [];
    for i := 0 to |records|
      invariant links == Links(records[..i])
    {
      LinksSnoc(records, i);
      var n := records[i];
      if Present(n.parentNodeId) {
        links := links + [Link(Id(n.parentNodeId.value), Id(n.id), OrElse(n.linkType, "contains"))];
      }
    }
    assert records[..|records|] == records;
    data := GraphData(nodes, links);
  }

  /** Building links keeps record order: the links of two runs of records are concatenated. */
  lemma {:induction false} LinksAppend(a: seq<NodeRecord>, b: seq<NodeRecord>)
    ensures Links(a + b) == Links(a) + Links(b)
    decreases |b|
  {
    if b == [] {
      assert a + b == a;
    } else {
      var init, last := b[..|b| - 1], b[|b| - 1];
      assert (a + b)[..|a + b| - 1] == a + init;
      assert (a + b)[|a + b| - 1] == last;
      LinksAppend(a, init);
      var tail := if Present(last.parentNodeId) then [LinkOf(last)] else [];
      assert Links(a) + Links(init) + tail == Links(a) + (Links(init) + tail);
    }
  }

  /** Record `i` has a parent and `l` is its containment link. */
  predicate BuiltFrom(records: seq<NodeRecord>, i: int, l: Link) {
    0 <= i < |records| && Present(records[i].parentNodeId) && l == LinkOf(records[i])
  }

  /**
   * A link is built exactly for a record with a parent: from the parent id to the
   * record id, typed by `linkType` or "contains".
   */
  lemma {:induction false} LinksMember(records: seq<NodeRecord>, l: Link)
    ensures l in Links(records) <==> exists i :: BuiltFrom(records, i, l)
  {
    if records != [] {
      var n := |records| - 1;
      var init := records[..n];
      LinksMember(init, l);
      forall i | 0 <= i < n ensures BuiltFrom(init, i, l) == BuiltFrom(records, i, l) {
        assert init[i] == records[i];
      }
      var tail := if Present(records[n].parentNodeId) then [LinkOf(records[n])] else [];
      assert Links(records) == Links(init) + tail;
      if l in Links(init) {
        var i :| BuiltFrom(init, i, l);
        assert BuiltFrom(records, i, l);
      } else if l in tail {
        assert BuiltFrom(records, n, l);
      } else {
        forall i | 0 <= i <= n ensures !BuiltFrom(records, i, l) {
          if i == n {
            assert BuiltFrom(records, n, l) ==> l in tail;
          }
        }
      }
    }
  }

  /** Every link produced points from a non-empty parent id to the id of a node of the graph. */
  lemma LinksIntoNodes(records: seq<NodeRecord>, l: Link)
    requires l in Links(records)
    ensures l.source.Id? && l.source.id != "" && l.target.Id?
    ensures exists i :: 0 <= i < |records| && NodeOf(records[i]).id == l.target.id
    ensures l.linkType != ""
  {
    LinksMember(records, l);
  }

  /** The `handleToggleView` updater: a copy of the visible views with one view flipped. */
  method ToggleView(prev: set<string>, view: string) returns (next: set<string>)
    ensures next == Toggled(prev, view)
  {
    next := prev;
    if view in next {
      next := next - {view};
    } else {
      next := next + {view};
    }
  }

  /** The visible views after toggling `view`. */
  function Toggled(visible: set<string>, view: string): (r: set<string>)
    ensures view in r <==> view !in visible
    ensures forall v :: v != view ==> (v in r <==> v in visible)
  {
    if view in visible then visible - {view} else visible + {view}
  }

  /** Toggling a view twice restores the visible views. */
  lemma ToggleTwice(visible: set<string>, view: string)
    ensures Toggled(Toggled(visible, view), view) == visible
  {
    var once := Toggled(visible, view);
    assert forall v :: v in Toggled(once, view) <==> v in visible;
  }

  /** `catalogItems.find((c) => c.id === catalogItemId) || null`. */
  function FindCatalogItem(items: seq<CatalogItem>, itemId: string): (r: Option<CatalogItem>)
    ensures r.Some? ==> r.value in items && r.value.id == itemId
    ensures r.None? ==> forall c :: c in items ==> c.id != itemId
    ensures r.Some? ==>
      exists k :: 0 <= k < |items| && items[k] == r.value && forall j :: 0 <= j < k ==> items[j].id != itemId
  {
    if items == [] then None
    else if items[0].id == itemId then Some(items[0])
    else FindCatalogItem(items[1..], itemId)
  }

  /** The `handleAssign` updater: the record with id `nodeId` gets the item and its catalogue entry. */
  function Assign(records: seq<NodeRecord>, nodeId: string, itemId: string, items: seq<CatalogItem>): (r: seq<NodeRecord>)
    ensures |r| == |records|
    ensures forall i :: 0 <= i < |records| && records[i].id != nodeId ==> r[i] == records[i]
    ensures forall i :: 0 <= i < |records| && records[i].id == nodeId ==>
      r[i].catalogItemId == Some(itemId) && r[i].catalogItem == FindCatalogItem(items, itemId)
      && r[i] == records[i].(catalogItemId := r[i].catalogItemId, catalogItem := r[i].catalogItem)
  {
    seq(|records|, i requires 0 <= i < |records| =>
      if records[i].id == nodeId
      then records[i].(catalogItemId := Some(itemId), catalogItem := FindCatalogItem(items, itemId))
      else records[i])
  }

  /** The `handleUnassign` updater: the record with id `nodeId` loses its catalogue item. */
  function Unassign(records: seq<NodeRecord>, nodeId: string): (r: seq<NodeRecord>)
    ensures |r| == |records|
    ensures forall i :: 0 <= i < |records| && records[i].id != nodeId ==> r[i] == records[i]
    ensures forall i :: 0 <= i < |records| && records[i].id == nodeId ==>
      r[i].catalogItemId == None && r[i].catalogItem == None
      && r[i] == records[i].(catalogItemId := None, catalogItem := None)
  {
    seq(|records|, i requires 0 <= i < |records| =>
      if records[i].id == nodeId then records[i].(catalogItemId := None, catalogItem := None) else records[i])
  }

  /** Unassigning undoes an assignment: what is left does not depend on the item assigned. */
  lemma UnassignAfterAssign(records: seq<NodeRecord>, nodeId: string, itemId: string, items: seq<CatalogItem>)
    ensures Unassign(Assign(records, nodeId, itemId, items), nodeId) == Unassign(records, nodeId)
  {
    var a := Assign(records, nodeId, itemId, items);
    assert forall i :: 0 <= i < |records| ==> a[i].id == records[i].id;
  }

  /** Assigning or unassigning a catalogue item leaves the links of the graph as they were. */
  lemma {:induction false} AssignKeepsLinks(records: seq<NodeRecord>, nodeId: string, itemId: string, items: seq<CatalogItem>)
    ensures Links(Assign(records, nodeId, itemId, items)) == Links(records)
    ensures Links(Unassign(records, nodeId)) == Links(records)
  {
    SameLinks(records, Assign(records, nodeId, itemId, items));
    SameLinks(records, Unassign(records, nodeId));
  }

  /** Records that agree on id, parent and link type give the same links. */
  lemma {:induction false} SameLinks(a: seq<NodeRecord>, b: seq<NodeRecord>)
    requires |a| == |b|
    requires forall i :: 0 <= i < |a| ==>
      a[i].id == b[i].id && a[i].parentNodeId == b[i].parentNodeId && a[i].linkType == b[i].linkType
    ensures Links(a) == Links(b)
  {
    if a != [] {
      SameLinks(a[..|a| - 1], b[..|b| - 1]);
    }
  }
}
