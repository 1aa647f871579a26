/**
 * The JSON graph of the A-Box (`serializeToJSON`): one node per visited block, in
 * the order of the Turtle subjects, and one link per connected child, pushed just
 * before the child is processed: `containment` for a statement input, `reference`
 * for a value input.
 */
module GraphJson {
  import opened Wrappers
  import opened Text
  import opened Blocks
  import opened Naming
  import opened PropertyNames
  import opened Traversal
  import opened Turtle

  /** `properties`: field name and value, in first-assignment order. */
  type Properties = seq<(string, Value)>

  datatype Node = Node(
    id: string, blockId: string, nodeType: string, caption: Value, designView: string, properties: Properties)

  datatype Link = Link(source: string, target: string, caption: string, linkType: string)

  // `caption` is the JSON `label` key (`label` is a Dafny keyword).

  datatype Graph = Graph(nodes: seq<Node>, links: seq<Link>)

  // ---------------------------------------------------------------------------
  // Properties: an object assigned field by field

  function Lookup(props: Properties, key: string): (r: Option<Value>)
    ensures r.Some? <==> exists i :: 0 <= i < |props| && props[i].0 == key
  {
    if props == [] then None
    else if props[0].0 == key then Some(props[0].1)
    else Lookup(props[1..], key)
  }

  /** The keys in order. */
  function Keys(props: Properties): (r: seq<string>)
    ensures |r| == |props| && forall i :: 0 <= i < |props| ==> r[i] == props[i].0
  {
    if props == [] then [] else [props[0].0] + Keys(props[1..])
  }

  predicate DistinctKeys(props: Properties) {
    forall i, j :: 0 <= i < j < |props| ==> props[i].0 != props[j].0
  }

  /** `properties[key] = value`: an existing key keeps its place, a new one goes last (integer-like keys aside, see README). */
  function Assign(props: Properties, key: string, value: Value): (r: Properties)
    ensures Keys(r) == if key in Keys(props) then Keys(props) else Keys(props) + [key]
    ensures Lookup(r, key) == Some(value)
    ensures forall k :: k != key ==> Lookup(r, k) == Lookup(props, k)
  {
    if props == [] then [(key, value)]
    else if props[0].0 == key then [(key, value)] + props[1..]
    else
      var rest := Assign(props[1..], key, value);
      assert Keys(props) == [props[0].0] + Keys(props[1..]);
      assert Keys([props[0]] + rest) == [props[0].0] + Keys(rest);
      [props[0]] + rest
  }

  /** Assigning a key that is not there yet appends it. */
  lemma {:induction false} AssignNew(props: Properties, key: string, value: Value)
    requires forall i :: 0 <= i < |props| ==> props[i].0 != key
    ensures Assign(props, key, value) == props + [(key, value)]
  {
    if props != [] {
      assert props[0].0 != key;
      AssignNew(props[1..], key, value);
      assert [props[0]] + (props[1..] + [(key, value)]) == props + [(key, value)];
    }
  }

  lemma AssignDistinct(props: Properties, key: string, value: Value)
    requires DistinctKeys(props)
    ensures DistinctKeys(Assign(props, key, value))
  {
    var r := Assign(props, key, value);
    assert forall i :: 0 <= i < |r| ==> r[i].0 == Keys(r)[i];
  }

  /** The properties of a block's named fields, each field overwriting the one before it. */
  function FieldProperties(fs: seq<Field>): Properties {
    if fs == [] then []
    else
      var last := fs[|fs| - 1];
      var p := FieldProperties(fs[..|fs| - 1]);
      if last.name == [] then p else Assign(p, last.name, last.value)
  }

  /** The value of the last field named `name`. */
  function LastValue(fs: seq<Field>, name: string): (r: Option<Value>)
    ensures r.Some? ==> exists i :: 0 <= i < |fs| && fs[i] == Field(name, r.value)
    ensures r.None? ==> forall i :: 0 <= i < |fs| ==> fs[i].name != name
  {
    if fs == [] then None
    else if fs[|fs| - 1].name == name then Some(fs[|fs| - 1].value)
    else LastValue(fs[..|fs| - 1], name)
  }

  /**
   * The properties name each named field exactly once, and a name maps to the value
   * of the last field with that name; unnamed fields are left out.
   */
  lemma {:induction false} FieldPropertiesLookup(fs: seq<Field>, name: string)
    ensures DistinctKeys(FieldProperties(fs))
    ensures Lookup(FieldProperties(fs), name) == (if name == [] then None else LastValue(fs, name))
  {
    if fs != [] {
      var last := fs[|fs| - 1];
      FieldPropertiesLookup(fs[..|fs| - 1], name);
      if last.name != [] {
        AssignDistinct(FieldProperties(fs[..|fs| - 1]), last.name, last.value);
      }
    }
  }

  /** The loop that fills `properties`. */
  method CollectProperties(fs: seq<Field>) returns (props: Properties)
    ensures props == FieldProperties(fs)
  {
    props := [];
    var i := 0;
    while i < |fs|
      invariant 0 <= i <= |fs|
      invariant props == FieldProperties(fs[..i])
    {
      assert fs[..i + 1][..i] == fs[..i];
      if fs[i].name != [] {
        props := Assign(props, fs[i].name, fs[i].value);
      }
      i := i + 1;
    }
    assert fs[..i] == fs;
  }

  // ---------------------------------------------------------------------------
  // Design view

  const SpatialWords: seq<string> := ["floor", "space", "zone", "area", "real_estate"]
  const ElectricalWords: seq<string> :=
    ["circuit", "distribution", "protection", "wiring", "socket", "switch", "light", "heater"]

  function ContainsAny(s: string, words: seq<string>): (r: bool)
    ensures r <==> exists i :: 0 <= i < |words| && Contains(s, words[i])
  {
    if words == [] then false else Contains(s, words[0]) || ContainsAny(s, words[1..])
  }

  /** A spatial word wins over an electrical one; a type with neither is shared. */
  function DesignView(blockType: string): (r: string)
    ensures r == "spatial" <==> exists i :: 0 <= i < |SpatialWords| && Contains(blockType, SpatialWords[i])
    ensures r == "electrical" <==>
      (forall i :: 0 <= i < |SpatialWords| ==> !Contains(blockType, SpatialWords[i]))
      && exists i :: 0 <= i < |ElectricalWords| && Contains(blockType, ElectricalWords[i])
    ensures r == "shared" <==>
      (forall i :: 0 <= i < |SpatialWords| ==> !Contains(blockType, SpatialWords[i]))
      && (forall i :: 0 <= i < |ElectricalWords| ==> !Contains(blockType, ElectricalWords[i]))
  {
    if ContainsAny(blockType, SpatialWords) then "spatial"
    else if ContainsAny(blockType, ElectricalWords) then "electrical"
    else "shared"
  }

  // ---------------------------------------------------------------------------
  // Nodes and links of the walk

  /** `.replace("dhc:", "")` on a name that starts with `dhc:` drops that prefix. */
  lemma StripDhc(name: string)
    requires StartsWith(name, "dhc:")
    ensures "dhc:" + ReplaceFirst(name, "dhc:", "") == name
    ensures ReplaceFirst(name, "dhc:", "") == name[4..]
  {
    assert name == "dhc:" + name[4..];
  }

  /** The node's label: a truthy `LABEL` field, or else the class without `dhc:`. */
  function NodeLabel(b: Block): (r: Value)
    requires Managed(b)
    ensures Truthy(FieldValue(b.fields, "LABEL")) ==> r == FieldValue(b.fields, "LABEL")
    ensures !Truthy(FieldValue(b.fields, "LABEL")) ==> r.Str? && "dhc:" + r.s == ClassOf(b)
  {
    var v := FieldValue(b.fields, "LABEL");
    var cls := ClassOf(b);
    StripDhc(cls);
    if Truthy(v) then v else Str(ReplaceFirst(cls, "dhc:", ""))
  }

  function NodeOf(home: string, b: Block): Node
    requires Managed(b)
  {
    Node(InstanceIri(home, b.blockType, b.id), b.id, ClassOf(b), NodeLabel(b), DesignView(b.blockType),
      FieldProperties(b.fields))
  }

  /** One node per managed block of `vs`, in order. */
  function NodesOf(home: string, vs: seq<Block>): (r: seq<Node>)
    ensures |r| <= |vs|
  {
    if vs == [] then []
    else
      var last := vs[|vs| - 1];
      NodesOf(home, vs[..|vs| - 1]) + (if Managed(last) then [NodeOf(home, last)] else [])
  }

  /** When every block is managed, node `i` is the node of block `i`. */
  lemma {:induction false} NodesOfManaged(home: string, vs: seq<Block>)
    requires forall i :: 0 <= i < |vs| ==> Managed(vs[i])
    ensures |NodesOf(home, vs)| == |vs|
    ensures forall i :: 0 <= i < |vs| ==> NodesOf(home, vs)[i] == NodeOf(home, vs[i])
  {
    if vs != [] {
      var init, last := vs[..|vs| - 1], vs[|vs| - 1];
      NodesOfManaged(home, init);
      var r := NodesOf(home, vs);
      assert r == NodesOf(home, init) + [NodeOf(home, last)];
      forall i | 0 <= i < |vs|
        ensures r[i] == NodeOf(home, vs[i])
      {
        if i < |init| {
          assert r[i] == NodesOf(home, init)[i];
          assert init[i] == vs[i];
        }
      }
    }
  }

  /** The link label: the object property without `dhc:`. */
  function LinkLabel(inputName: string): (r: string)
    ensures r == PropertyTable(inputName).GetOr(Lower(inputName))
  {
    var p := InputToProperty(inputName);
    StripDhc(p);
    ReplaceFirst(p, "dhc:", "")
  }

  function LinkTo(home: string, source: string, inputName: string, target: Block, linkType: string): Link {
    Link(source, InstanceIri(home, target.blockType, target.id), LinkLabel(inputName), linkType)
  }

  /** The links pushed while a block is processed, each just before its target's own links. */
  function BlockLinks(home: string, b: Block): seq<Link>
    decreases b
  {
    if !Managed(b) then [] else InputsLinks(home, InstanceIri(home, b.blockType, b.id), b.inputs)
  }

  function InputsLinks(home: string, source: string, ins: seq<Input>): seq<Link>
    decreases ins
  {
    if ins == [] then []
    else InputsLinks(home, source, ins[..|ins| - 1]) + InputLinks(home, source, ins[|ins| - 1])
  }

  function InputLinks(home: string, source: string, inp: Input): seq<Link>
    decreases inp
  {
    match inp
    case StatementInput(name, chain) => ChainLinks(home, source, name, chain)
    case ValueInput(name, t) =>
      if t.Some? then [LinkTo(home, source, name, t.value, "reference")] + BlockLinks(home, t.value) else []
  }

  function ChainLinks(home: string, source: string, name: string, chain: seq<Block>): seq<Link>
    decreases chain
  {
    if chain == [] then []
    else
      var last := chain[|chain| - 1];
      ChainLinks(home, source, name, chain[..|chain| - 1])
        + ([LinkTo(home, source, name, last, "containment")] + BlockLinks(home, last))
  }

  function TopLinks(home: string, top: seq<Block>): seq<Link> {
    if top == [] then [] else TopLinks(home, top[..|top| - 1]) + BlockLinks(home, top[|top| - 1])
  }

  /** `serializeToJSON`: an empty graph for a missing workspace. */
  function JsonGraph(home: string, ws: Option<Workspace>): Graph {
    match ws
    case None => Graph([], [])
    case Some(top) => Graph(NodesOf(home, ChainVisited(top)), TopLinks(home, top))
  }

  // ---------------------------------------------------------------------------
  // Steps of the writer loops

  lemma NodesOfAppend(home: string, a: seq<Block>, b: seq<Block>)
    ensures NodesOf(home, a + b) == NodesOf(home, a) + NodesOf(home, b)
    decreases |b|
  {
    if b == [] {
      assert a + b == a;
    } else {
      assert (a + b)[..|a + b| - 1] == a + b[..|b| - 1];
      NodesOfAppend(home, a, b[..|b| - 1]);
    }
  }

  lemma ChainLinksSnoc(home: string, source: string, name: string, chain: seq<Block>, k: nat)
    requires k < |chain|
    ensures ChainLinks(home, source, name, chain[..k + 1]) == ChainLinks(home, source, name, chain[..k])
      + ([LinkTo(home, source, name, chain[k], "containment")] + BlockLinks(home, chain[k]))
  {
    assert chain[..k + 1][..k] == chain[..k];
  }

  lemma InputsLinksSnoc(home: string, source: string, ins: seq<Input>, j: nat)
    requires j < |ins|
    ensures InputsLinks(home, source, ins[..j + 1]) == InputsLinks(home, source, ins[..j]) + InputLinks(home, source, ins[j])
  {
    assert ins[..j + 1][..j] == ins[..j];
  }

  lemma InputsVisitedSnoc(ins: seq<Input>, j: nat)
    requires j < |ins|
    ensures InputsVisited(ins[..j + 1]) == InputsVisited(ins[..j]) + InputVisited(ins[j])
  {
    assert ins[..j + 1][..j] == ins[..j];
  }

  lemma ChainVisitedSnoc(bs: seq<Block>, i: nat)
    requires i < |bs|
    ensures ChainVisited(bs[..i + 1]) == ChainVisited(bs[..i]) + Visited(bs[i])
  {
    assert bs[..i + 1][..i] == bs[..i];
  }

  lemma TopLinksSnoc(home: string, top: seq<Block>, i: nat)
    requires i < |top|
    ensures TopLinks(home, top[..i + 1]) == TopLinks(home, top[..i]) + BlockLinks(home, top[i])
  {
    assert top[..i + 1][..i] == top[..i];
  }

  // ---------------------------------------------------------------------------
  // Every link starts at a node

  function IdSet(nodes: seq<Node>): set<string> {
    set n | n in nodes :: n.id
  }

  predicate SourcesIn(links: seq<Link>, ids: set<string>) {
    forall l :: l in links ==> l.source in ids
  }

  lemma IdSetAppend(a: seq<Node>, b: seq<Node>)
    ensures IdSet(a + b) == IdSet(a) + IdSet(b)
  {
    assert forall n :: n in a + b <==> n in a || n in b;
  }

  lemma {:induction false} BlockLinksSources(home: string, b: Block)
    ensures SourcesIn(BlockLinks(home, b), IdSet(NodesOf(home, Visited(b))))
    decreases b
  {
    if Managed(b) {
      var iri := InstanceIri(home, b.blockType, b.id);
      InputsLinksSources(home, iri, b.inputs);
      NodesOfAppend(home, [b], InputsVisited(b.inputs));
      assert NodesOf(home, [b]) == [NodeOf(home, b)] by {
        assert [b][..0] == [];
      }
      IdSetAppend([NodeOf(home, b)], NodesOf(home, InputsVisited(b.inputs)));
      assert IdSet([NodeOf(home, b)]) == {iri};
    }
  }

  lemma {:induction false} InputsLinksSources(home: string, source: string, ins: seq<Input>)
    ensures SourcesIn(InputsLinks(home, source, ins), {source} + IdSet(NodesOf(home, InputsVisited(ins))))
    decreases ins
  {
    if ins != [] {
      var init, last := ins[..|ins| - 1], ins[|ins| - 1];
      InputsLinksSources(home, source, init);
      InputLinksSources(home, source, last);
      NodesOfAppend(home, InputsVisited(init), InputVisited(last));
      IdSetAppend(NodesOf(home, InputsVisited(init)), NodesOf(home, InputVisited(last)));
    }
  }

  lemma {:induction false} InputLinksSources(home: string, source: string, inp: Input)
    ensures SourcesIn(InputLinks(home, source, inp), {source} + IdSet(NodesOf(home, InputVisited(inp))))
    decreases inp
  {
    match inp
    case StatementInput(name, chain) => ChainLinksSources(home, source, name, chain);
    case ValueInput(name, t) => if t.Some? { BlockLinksSources(home, t.value); }
  }

  lemma {:induction false} ChainLinksSources(home: string, source: string, name: string, chain: seq<Block>)
    ensures SourcesIn(ChainLinks(home, source, name, chain), {source} + IdSet(NodesOf(home, ChainVisited(chain))))
    decreases chain
  {
    if chain != [] {
      var init, last := chain[..|chain| - 1], chain[|chain| - 1];
      ChainLinksSources(home, source, name, init);
      BlockLinksSources(home, last);
      NodesOfAppend(home, ChainVisited(init), Visited(last));
      IdSetAppend(NodesOf(home, ChainVisited(init)), NodesOf(home, Visited(last)));
    }
  }

  lemma {:induction false} TopLinksSources(home: string, top: seq<Block>)
    ensures SourcesIn(TopLinks(home, top), IdSet(NodesOf(home, ChainVisited(top))))
  {
    if top != [] {
      var init, last := top[..|top| - 1], top[|top| - 1];
      TopLinksSources(home, init);
      BlockLinksSources(home, last);
      NodesOfAppend(home, ChainVisited(init), Visited(last));
      IdSetAppend(NodesOf(home, ChainVisited(init)), NodesOf(home, Visited(last)));
    }
  }

  /** In the JSON graph every link starts at one of its nodes (a target may be a block without a class). */
  lemma LinkSourcesAreNodes(home: string, ws: Option<Workspace>)
    ensures var g := JsonGraph(home, ws);
      forall l :: l in g.links ==> exists n :: n in g.nodes && n.id == l.source
  {
    if ws.Some? {
      TopLinksSources(home, ws.value);
    }
  }

  // ---------------------------------------------------------------------------
  // The two serializers describe the same blocks

  /**
   * For a workspace, the Turtle text is the prefixes followed by one piece per
   * block of the walk, and the JSON nodes are one per block of the same walk, in
   * the same order, with the same instance IRI and class.
   */
  lemma SerializersAgree(home: string, top: Workspace)
    ensures var vs := ChainVisited(top);
      TtlText(home, Some(top)) == Join(Prefixes + Pieces(home, vs), "\n")
      && |JsonGraph(home, Some(top)).nodes| == |vs|
      && forall i :: 0 <= i < |vs| ==>
        var n := JsonGraph(home, Some(top)).nodes[i];
        Managed(vs[i]) && n.id == InstanceIri(home, vs[i].blockType, vs[i].id) && n.nodeType == ClassOf(vs[i])
  {
    var vs := ChainVisited(top);
    ChainSectionsVisited(home, top);
    ChainVisitedManaged(top);
    NodesOfManaged(home, vs);
  }

  // ---------------------------------------------------------------------------
  // The writer: `processBlock` pushing onto shared node and link lists

  class JsonWriter {
    var nodes: seq<Node>
    var links: seq<Link>
    const home: string

    constructor (home: string)
      ensures this.home == home && nodes == [] && links == []
    {
      this.home := home;
      nodes := [];
      links := [];
    }

    method ProcessBlock(b: Block)
      modifies this
      ensures nodes == old(nodes) + NodesOf(home, Visited(b))
      ensures links == old(links) + BlockLinks(home, b)
      decreases b, 1
    {
      if !Managed(b) {
        return;
      }
      var cls := ClassOf(b);
      var iri := InstanceIri(home, b.blockType, b.id);
      var v := FieldValue(b.fields, "LABEL");
      var caption := if Truthy(v) then v else Str(ReplaceFirst(cls, "dhc:", ""));
      var props := CollectProperties(b.fields);
      var view := DesignView(b.blockType);
      nodes := nodes + [Node(iri, b.id, cls, caption, view, props)];
      ProcessInputs(iri, b.inputs);
      NodesOfAppend(home, [b], InputsVisited(b.inputs));
      assert NodesOf(home, [b]) == [NodeOf(home, b)] by {
        assert [b][..0] == [];
      }
      AppendAssoc(old(nodes), [NodeOf(home, b)], NodesOf(home, InputsVisited(b.inputs)));
    }

    method ProcessInputs(iri: string, ins: seq<Input>)
      modifies this
      ensures nodes == old(nodes) + NodesOf(home, InputsVisited(ins))
      ensures links == old(links) + InputsLinks(home, iri, ins)
      decreases ins, 0
    {
      var j := 0;
      while j < |ins|
        invariant 0 <= j <= |ins|
        invariant nodes == old(nodes) + NodesOf(home, InputsVisited(ins[..j]))
        invariant links == old(links) + InputsLinks(home, iri, ins[..j])
        decreases |ins| - j
      {
        InputsVisitedSnoc(ins, j);
        InputsLinksSnoc(home, iri, ins, j);
        NodesOfAppend(home, InputsVisited(ins[..j]), InputVisited(ins[j]));
        ghost var nodes0, links0 := nodes, links;
        match ins[j] {
          case StatementInput(name, chain) =>
            ProcessChain(iri, name, chain);
          case ValueInput(name, t) =>
            if t.Some? {
              var link := LinkTo(home, iri, name, t.value, "reference");
              links := links + [link];
              ProcessBlock(t.value);
              AppendAssoc(links0, [link], BlockLinks(home, t.value));
            }
        }
        assert nodes == nodes0 + NodesOf(home, InputVisited(ins[j]));
        assert links == links0 + InputLinks(home, iri, ins[j]);
        AppendAssoc(old(nodes), NodesOf(home, InputsVisited(ins[..j])), NodesOf(home, InputVisited(ins[j])));
        AppendAssoc(old(links), InputsLinks(home, iri, ins[..j]), InputLinks(home, iri, ins[j]));
        j := j + 1;
      }
      assert ins[..j] == ins;
    }

    /** A statement input's chain: a containment link to each block, then that block. */
    method ProcessChain(iri: string, name: string, chain: seq<Block>)
      modifies this
      ensures nodes == old(nodes) + NodesOf(home, ChainVisited(chain))
      ensures links == old(links) + ChainLinks(home, iri, name, chain)
      decreases chain, 0
    {
      var k := 0;
      while k < |chain|
        invariant 0 <= k <= |chain|
        invariant nodes == old(nodes) + NodesOf(home, ChainVisited(chain[..k]))
        invariant links == old(links) + ChainLinks(home, iri, name, chain[..k])
      {
        ChainVisitedSnoc(chain, k);
        ChainLinksSnoc(home, iri, name, chain, k);
        NodesOfAppend(home, ChainVisited(chain[..k]), Visited(chain[k]));
        var link := LinkTo(home, iri, name, chain[k], "containment");
        links := links + [link];
        ProcessBlock(chain[k]);
        AppendAssoc(old(nodes), NodesOf(home, ChainVisited(chain[..k])), NodesOf(home, Visited(chain[k])));
        AppendAssoc(old(links) + ChainLinks(home, iri, name, chain[..k]), [link], BlockLinks(home, chain[k]));
        AppendAssoc(old(links), ChainLinks(home, iri, name, chain[..k]), [link] + BlockLinks(home, chain[k]));
        k := k + 1;
      }
      assert chain[..k] == chain;
    }

    /** The top blocks, one after the other. */
    method ProcessAll(top: seq<Block>)
      modifies this
      ensures nodes == old(nodes) + NodesOf(home, ChainVisited(top))
      ensures links == old(links) + TopLinks(home, top)
    {
      var i := 0;
      while i < |top|
        invariant 0 <= i <= |top|
        invariant nodes == old(nodes) + NodesOf(home, ChainVisited(top[..i]))
        invariant links == old(links) + TopLinks(home, top[..i])
      {
        ChainVisitedSnoc(top, i);
        TopLinksSnoc(home, top, i);
        NodesOfAppend(home, ChainVisited(top[..i]), Visited(top[i]));
        ProcessBlock(top[i]);
        AppendAssoc(old(nodes), NodesOf(home, ChainVisited(top[..i])), NodesOf(home, Visited(top[i])));
        AppendAssoc(old(links), TopLinks(home, top[..i]), BlockLinks(home, top[i]));
        i := i + 1;
      }
      assert top[..i] == top;
    }
  }

  /** `serializeToJSON(workspace, smartHomeId)`. */
  method SerializeToJSON(home: string, ws: Option<Workspace>) returns (g: Graph)
    ensures g == JsonGraph(home, ws)
  {
    if ws.None? {
      return Graph([], []);
    }
    var writer := new JsonWriter(home);
    writer.ProcessAll(ws.value);
    g := Graph(writer.nodes, writer.links);
  }
}
