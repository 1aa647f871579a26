/**
 * The JSON links and the Turtle relation lines describe the same relations. Each
 * visited block has one relation line per block of its statement inputs (all
 * statement inputs first) and one per connected value input. The JSON walk pushes
 * one link per such relation, statement and value inputs together in input order,
 * and interleaves them with the links of the children. So the two agree
 * relation by relation, but only up to order.
 */
module RelationLinks {
  import opened Wrappers
  import opened Text
  import opened Blocks
  import opened Naming
  import opened PropertyNames
  import opened Traversal
  import opened Turtle
  import opened GraphJson

  // ---------------------------------------------------------------------------
  // The links a block pushes itself

  /** The containment links to the blocks of one chain, in chain order. */
  function ChainOwnLinks(home: string, source: string, name: string, chain: seq<Block>): (r: seq<Link>)
    ensures |r| == |chain|
  {
    if chain == [] then []
    else
      ChainOwnLinks(home, source, name, chain[..|chain| - 1])
        + [LinkTo(home, source, name, chain[|chain| - 1], "containment")]
  }

  function InputOwnLinks(home: string, source: string, inp: Input): seq<Link> {
    match inp
    case StatementInput(name, chain) => ChainOwnLinks(home, source, name, chain)
    case ValueInput(name, t) => if t.Some? then [LinkTo(home, source, name, t.value, "reference")] else []
  }

  function InputsOwnLinks(home: string, source: string, ins: seq<Input>): seq<Link> {
    if ins == [] then []
    else InputsOwnLinks(home, source, ins[..|ins| - 1]) + InputOwnLinks(home, source, ins[|ins| - 1])
  }

  /** The links pushed while `b` itself is processed, without those of its descendants. */
  function OwnLinks(home: string, b: Block): seq<Link> {
    if !Managed(b) then [] else InputsOwnLinks(home, InstanceIri(home, b.blockType, b.id), b.inputs)
  }

  /** The own links of every block of `vs`, block after block. */
  function AllOwnLinks(home: string, vs: seq<Block>): seq<Link> {
    if vs == [] then [] else AllOwnLinks(home, vs[..|vs| - 1]) + OwnLinks(home, vs[|vs| - 1])
  }

  lemma {:induction false} AllOwnLinksAppend(home: string, a: seq<Block>, b: seq<Block>)
    ensures AllOwnLinks(home, a + b) == AllOwnLinks(home, a) + AllOwnLinks(home, b)
    decreases |b|
  {
    if b == [] {
      assert a + b == a;
    } else {
      var init := b[..|b| - 1];
      assert (a + b)[..|a + b| - 1] == a + init;
      assert (a + b)[|a + b| - 1] == b[|b| - 1];
      AllOwnLinksAppend(home, a, init);
      AppendAssoc(AllOwnLinks(home, a), AllOwnLinks(home, init), OwnLinks(home, b[|b| - 1]));
    }
  }

  // ---------------------------------------------------------------------------
  // The walk's links are the own links of the visited blocks, reordered

  lemma {:induction false} BlockLinksOwn(home: string, b: Block)
    ensures multiset(BlockLinks(home, b)) == multiset(AllOwnLinks(home, Visited(b)))
    decreases b
  {
    if Managed(b) {
      var iri := InstanceIri(home, b.blockType, b.id);
      InputsLinksOwn(home, iri, b.inputs);
      AllOwnLinksAppend(home, [b], InputsVisited(b.inputs));
      assert AllOwnLinks(home, [b]) == OwnLinks(home, b) by {
        assert [b][..0] == [];
      }
    }
  }

  lemma {:induction false} InputsLinksOwn(home: string, source: string, ins: seq<Input>)
    ensures multiset(InputsLinks(home, source, ins))
      == multiset(InputsOwnLinks(home, source, ins)) + multiset(AllOwnLinks(home, InputsVisited(ins)))
    decreases ins
  {
    if ins != [] {
      var init, last := ins[..|ins| - 1], ins[|ins| - 1];
      InputsLinksOwn(home, source, init);
      InputLinksOwn(home, source, last);
      AllOwnLinksAppend(home, InputsVisited(init), InputVisited(last));
    }
  }

  lemma {:induction false} InputLinksOwn(home: string, source: string, inp: Input)
    ensures multiset(InputLinks(home, source, inp))
      == multiset(InputOwnLinks(home, source, inp)) + multiset(AllOwnLinks(home, InputVisited(inp)))
    decreases inp
  {
    match inp
    case StatementInput(name, chain) => ChainLinksOwn(home, source, name, chain);
    case ValueInput(name, t) => if t.Some? { BlockLinksOwn(home, t.value); }
  }

  lemma {:induction false} ChainLinksOwn(home: string, source: string, name: string, chain: seq<Block>)
    ensures multiset(ChainLinks(home, source, name, chain))
      == multiset(ChainOwnLinks(home, source, name, chain)) + multiset(AllOwnLinks(home, ChainVisited(chain)))
    decreases chain
  {
    if chain != [] {
      var init, last := chain[..|chain| - 1], chain[|chain| - 1];
      ChainLinksOwn(home, source, name, init);
      BlockLinksOwn(home, last);
      AllOwnLinksAppend(home, ChainVisited(init), Visited(last));
    }
  }

  /** The links of the whole walk are the own links of the visited blocks, up to order. */
  lemma {:induction false} TopLinksOwn(home: string, top: seq<Block>)
    ensures multiset(TopLinks(home, top)) == multiset(AllOwnLinks(home, ChainVisited(top)))
  {
    if top != [] {
      var init, last := top[..|top| - 1], top[|top| - 1];
      TopLinksOwn(home, init);
      BlockLinksOwn(home, last);
      AllOwnLinksAppend(home, ChainVisited(init), Visited(last));
    }
  }

  // ---------------------------------------------------------------------------
  // A block's own links and its relation lines

  /** The relation line a link stands for: `dhc:` and its label, then its target. */
  function LineOf(l: Link): string {
    "  " + ("dhc:" + l.caption) + " " + l.target + " ;"
  }

  /** Link `i` leaves `source`, has type `linkType` and stands for line `i`. */
  predicate Describes(links: seq<Link>, lines: seq<string>, source: string, linkType: string) {
    && |links| == |lines|
    && forall i :: 0 <= i < |links| ==>
      links[i].source == source && links[i].linkType == linkType && LineOf(links[i]) == lines[i]
  }

  lemma DescribesAppend(a: seq<Link>, la: seq<string>, b: seq<Link>, lb: seq<string>, source: string, linkType: string)
    requires Describes(a, la, source, linkType) && Describes(b, lb, source, linkType)
    ensures Describes(a + b, la + lb, source, linkType)
  {
  }

  /** A link written as a line is the relation line of its input and target. */
  lemma LinkLine(home: string, source: string, name: string, target: Block, linkType: string)
    ensures LineOf(LinkTo(home, source, name, target, linkType)) == RelationLine(home, name, target)
  {
    StripDhc(InputToProperty(name));
  }

  /** The statement inputs' containment links, input by input and in chain order. */
  function StatementLinks(home: string, source: string, ins: seq<Input>): seq<Link> {
    if ins == [] then []
    else
      var last := ins[|ins| - 1];
      StatementLinks(home, source, ins[..|ins| - 1])
        + (if last.StatementInput? then ChainOwnLinks(home, source, last.name, last.chain) else [])
  }

  /** The connected value inputs' reference links, in input order. */
  function ValueLinks(home: string, source: string, ins: seq<Input>): seq<Link> {
    if ins == [] then []
    else
      var last := ins[|ins| - 1];
      ValueLinks(home, source, ins[..|ins| - 1])
        + (if last.ValueInput? && last.target.Some? then [LinkTo(home, source, last.name, last.target.value, "reference")] else [])
  }

  lemma {:induction false} ChainDescribed(home: string, source: string, name: string, chain: seq<Block>)
    ensures Describes(ChainOwnLinks(home, source, name, chain), ChainLines(home, name, chain), source, "containment")
  {
    if chain != [] {
      var init, last := chain[..|chain| - 1], chain[|chain| - 1];
      ChainDescribed(home, source, name, init);
      LinkLine(home, source, name, last, "containment");
      DescribesAppend(ChainOwnLinks(home, source, name, init), ChainLines(home, name, init),
        [LinkTo(home, source, name, last, "containment")], [RelationLine(home, name, last)], source, "containment");
    }
  }

  /** Statement link `i` stands for statement line `i`: same property, same target, type containment. */
  lemma {:induction false} StatementDescribed(home: string, source: string, ins: seq<Input>)
    ensures Describes(StatementLinks(home, source, ins), StatementLines(home, ins), source, "containment")
  {
    if ins != [] {
      var init, last := ins[..|ins| - 1], ins[|ins| - 1];
      StatementDescribed(home, source, init);
      if last.StatementInput? {
        ChainDescribed(home, source, last.name, last.chain);
        DescribesAppend(StatementLinks(home, source, init), StatementLines(home, init),
          ChainOwnLinks(home, source, last.name, last.chain), ChainLines(home, last.name, last.chain), source, "containment");
      } else {
        assert StatementLinks(home, source, ins) == StatementLinks(home, source, init) + [];
        assert StatementLines(home, ins) == StatementLines(home, init) + [];
      }
    }
  }

  /** Value link `i` stands for value line `i`: same property, same target, type reference. */
  lemma {:induction false} ValueDescribed(home: string, source: string, ins: seq<Input>)
    ensures Describes(ValueLinks(home, source, ins), ValueLines(home, ins), source, "reference")
  {
    if ins != [] {
      var init, last := ins[..|ins| - 1], ins[|ins| - 1];
      ValueDescribed(home, source, init);
      if last.ValueInput? && last.target.Some? {
        LinkLine(home, source, last.name, last.target.value, "reference");
        DescribesAppend(ValueLinks(home, source, init), ValueLines(home, init),
          [LinkTo(home, source, last.name, last.target.value, "reference")],
          [RelationLine(home, last.name, last.target.value)], source, "reference");
      } else {
        assert ValueLinks(home, source, ins) == ValueLinks(home, source, init) + [];
        assert ValueLines(home, ins) == ValueLines(home, init) + [];
      }
    }
  }

  /** In input order the own links interleave the statement links and the value links. */
  lemma {:induction false} OwnLinksSplit(home: string, source: string, ins: seq<Input>)
    ensures multiset(InputsOwnLinks(home, source, ins))
      == multiset(StatementLinks(home, source, ins)) + multiset(ValueLinks(home, source, ins))
  {
    if ins != [] {
      OwnLinksSplit(home, source, ins[..|ins| - 1]);
    }
  }

  /**
   * A block's own links are, up to order, its statement links followed by its
   * value links, and these stand one for one for its statement lines and its
   * value lines in the Turtle text.
   */
  lemma OwnLinksMatchLines(home: string, b: Block)
    requires Managed(b)
    ensures var iri := InstanceIri(home, b.blockType, b.id);
      && multiset(OwnLinks(home, b)) == multiset(StatementLinks(home, iri, b.inputs) + ValueLinks(home, iri, b.inputs))
      && Describes(StatementLinks(home, iri, b.inputs), StatementLines(home, b.inputs), iri, "containment")
      && Describes(ValueLinks(home, iri, b.inputs), ValueLines(home, b.inputs), iri, "reference")
    ensures |OwnLinks(home, b)| == |StatementLines(home, b.inputs)| + |ValueLines(home, b.inputs)|
  {
    var iri := InstanceIri(home, b.blockType, b.id);
    OwnLinksSplit(home, iri, b.inputs);
    StatementDescribed(home, iri, b.inputs);
    ValueDescribed(home, iri, b.inputs);
    assert |multiset(OwnLinks(home, b))| == |OwnLinks(home, b)|;
  }

  // ---------------------------------------------------------------------------
  // The links that leave one IRI

  /** The links whose source is `source`, in order. */
  function LinksFrom(links: seq<Link>, source: string): (r: seq<Link>)
    ensures forall l :: l in r ==> l.source == source
  {
    if links == [] then []
    else
      var last := links[|links| - 1];
      LinksFrom(links[..|links| - 1], source) + (if last.source == source then [last] else [])
  }

  lemma {:induction false} LinksFromCount(links: seq<Link>, source: string)
    ensures forall l :: multiset(LinksFrom(links, source))[l] == if l.source == source then multiset(links)[l] else 0
  {
    if links != [] {
      var init := links[..|links| - 1];
      LinksFromCount(init, source);
      assert links == init + [links[|links| - 1]];
    }
  }

  /** Filtering by source respects reordering. */
  lemma LinksFromPermutation(a: seq<Link>, b: seq<Link>, source: string)
    requires multiset(a) == multiset(b)
    ensures multiset(LinksFrom(a, source)) == multiset(LinksFrom(b, source))
  {
    LinksFromCount(a, source);
    LinksFromCount(b, source);
  }

  lemma {:induction false} LinksFromAppend(a: seq<Link>, b: seq<Link>, source: string)
    ensures LinksFrom(a + b, source) == LinksFrom(a, source) + LinksFrom(b, source)
    decreases |b|
  {
    if b == [] {
      assert a + b == a;
    } else {
      var init, last := b[..|b| - 1], b[|b| - 1];
      assert (a + b)[..|a + b| - 1] == a + init;
      assert (a + b)[|a + b| - 1] == last;
      LinksFromAppend(a, init, source);
      AppendAssoc(LinksFrom(a, source), LinksFrom(init, source), if last.source == source then [last] else []);
    }
  }

  /** Links that all leave `other` keep everything or nothing when filtered by source. */
  lemma {:induction false} LinksFromSame(links: seq<Link>, other: string, source: string)
    requires forall l :: l in links ==> l.source == other
    ensures LinksFrom(links, source) == if source == other then links else []
  {
    if links != [] {
      var init, last := links[..|links| - 1], links[|links| - 1];
      forall l | l in init ensures l.source == other {
        assert l in links;
      }
      LinksFromSame(init, other, source);
      assert last in links;
      if source == other {
        assert init + [last] == links;
      }
    }
  }

  /** Every own link of a block leaves that block's IRI. */
  lemma OwnLinksSource(home: string, b: Block)
    ensures forall l :: l in OwnLinks(home, b) ==> l.source == InstanceIri(home, b.blockType, b.id)
  {
    if Managed(b) {
      var iri := InstanceIri(home, b.blockType, b.id);
      OwnLinksMatchLines(home, b);
      var s, v := StatementLinks(home, iri, b.inputs), ValueLinks(home, iri, b.inputs);
      forall l | l in OwnLinks(home, b) ensures l.source == iri {
        assert l in multiset(s + v);
      }
    }
  }

  /** Among blocks of distinct IRIs, the own links leaving block `k`'s IRI are block `k`'s. */
  lemma {:induction false} AllOwnLinksFrom(home: string, vs: seq<Block>, k: nat)
    requires k < |vs|
    requires forall j :: 0 <= j < |vs| && j != k ==>
      InstanceIri(home, vs[j].blockType, vs[j].id) != InstanceIri(home, vs[k].blockType, vs[k].id)
    ensures LinksFrom(AllOwnLinks(home, vs), InstanceIri(home, vs[k].blockType, vs[k].id)) == OwnLinks(home, vs[k])
  {
    var init, last := vs[..|vs| - 1], vs[|vs| - 1];
    var iri := InstanceIri(home, vs[k].blockType, vs[k].id);
    LinksFromAppend(AllOwnLinks(home, init), OwnLinks(home, last), iri);
    OwnLinksSource(home, last);
    LinksFromSame(OwnLinks(home, last), InstanceIri(home, last.blockType, last.id), iri);
    if k == |vs| - 1 {
      NoneFrom(home, init, iri);
    } else {
      assert init[k] == vs[k];
      AllOwnLinksFrom(home, init, k);
    }
  }

  /** Blocks whose IRIs all differ from `iri` leave no own link from `iri`. */
  lemma {:induction false} NoneFrom(home: string, vs: seq<Block>, iri: string)
    requires forall j :: 0 <= j < |vs| ==> InstanceIri(home, vs[j].blockType, vs[j].id) != iri
    ensures LinksFrom(AllOwnLinks(home, vs), iri) == []
  {
    if vs != [] {
      var init, last := vs[..|vs| - 1], vs[|vs| - 1];
      assert forall j :: 0 <= j < |init| ==> init[j] == vs[j];
      NoneFrom(home, init, iri);
      LinksFromAppend(AllOwnLinks(home, init), OwnLinks(home, last), iri);
      OwnLinksSource(home, last);
      LinksFromSame(OwnLinks(home, last), InstanceIri(home, last.blockType, last.id), iri);
    }
  }

  // ---------------------------------------------------------------------------
  // The two serializers agree on the relations

  /** The number of relation lines the Turtle text gives the blocks of `vs`. */
  function RelationLineCount(home: string, vs: seq<Block>): nat {
    if vs == [] then 0
    else
      var last := vs[|vs| - 1];
      RelationLineCount(home, vs[..|vs| - 1])
        + (if Managed(last) then |StatementLines(home, last.inputs)| + |ValueLines(home, last.inputs)| else 0)
  }

  lemma {:induction false} AllOwnLinksCount(home: string, vs: seq<Block>)
    ensures |AllOwnLinks(home, vs)| == RelationLineCount(home, vs)
  {
    if vs != [] {
      AllOwnLinksCount(home, vs[..|vs| - 1]);
      if Managed(vs[|vs| - 1]) {
        OwnLinksMatchLines(home, vs[|vs| - 1]);
      }
    }
  }

  /** The JSON graph has exactly one link per relation line of the Turtle text. */
  lemma LinkCount(home: string, top: Workspace)
    ensures |JsonGraph(home, Some(top)).links| == RelationLineCount(home, ChainVisited(top))
  {
    TopLinksOwn(home, top);
    AllOwnLinksCount(home, ChainVisited(top));
    assert |multiset(TopLinks(home, top))| == |TopLinks(home, top)|;
    assert |multiset(AllOwnLinks(home, ChainVisited(top)))| == |AllOwnLinks(home, ChainVisited(top))|;
  }

  /**
   * For a visited block whose IRI no other visited block shares, the JSON links
   * leaving that IRI are, up to order, its statement links and its value links,
   * and these stand one for one for the block's statement and value lines in the
   * Turtle text: same target, property `dhc:` plus the link label, and type
   * containment or reference.
   */
  lemma LinksMatchRelationLines(home: string, top: Workspace, k: nat)
    requires k < |ChainVisited(top)|
    requires var vs := ChainVisited(top);
      forall j :: 0 <= j < |vs| && j != k ==>
        InstanceIri(home, vs[j].blockType, vs[j].id) != InstanceIri(home, vs[k].blockType, vs[k].id)
    ensures var b := ChainVisited(top)[k];
      var iri := InstanceIri(home, b.blockType, b.id);
      && multiset(LinksFrom(JsonGraph(home, Some(top)).links, iri))
        == multiset(StatementLinks(home, iri, b.inputs) + ValueLinks(home, iri, b.inputs))
      && Describes(StatementLinks(home, iri, b.inputs), StatementLines(home, b.inputs), iri, "containment")
      && Describes(ValueLinks(home, iri, b.inputs), ValueLines(home, b.inputs), iri, "reference")
  {
    var vs := ChainVisited(top);
    var b := vs[k];
    var iri := InstanceIri(home, b.blockType, b.id);
    ChainVisitedManaged(top);
    assert vs[k] in vs;
    TopLinksOwn(home, top);
    LinksFromPermutation(TopLinks(home, top), AllOwnLinks(home, vs), iri);
    AllOwnLinksFrom(home, vs, k);
    OwnLinksMatchLines(home, b);
  }
}
