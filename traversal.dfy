/**
 * The walk shared by both A-Box serializers: from each top block, a block with an
 * ontology class is visited, then its inputs in order (a statement input's chain
 * in order, a value input's connected block); a block without a class is skipped
 * together with everything below it.
 */
module Traversal {
  import opened Wrappers
  import opened Text
  import opened Blocks
  import opened Naming

  /** The block has an ontology class (see `BlockTypeToClass`). */
  predicate Managed(b: Block) {
    StartsWith(b.blockType, "dhc_")
  }

  function ClassOf(b: Block): (cls: string)
    requires Managed(b)
    ensures BlockTypeToClass(b.blockType) == Some(cls)
  {
    BlockTypeToClass(b.blockType).value
  }

  /** The managed blocks reached from `b`, in the order the serializers process them. */
  function Visited(b: Block): (r: seq<Block>)
    ensures Managed(b) ==> |r| >= 1 && r[0] == b
    ensures !Managed(b) ==> r == []
    decreases b
  {
    if !Managed(b) then [] else [b] + InputsVisited(b.inputs)
  }

  function InputsVisited(ins: seq<Input>): seq<Block>
    decreases ins
  {
    if ins == [] then [] else InputsVisited(ins[..|ins| - 1]) + InputVisited(ins[|ins| - 1])
  }

  function InputVisited(inp: Input): seq<Block>
    decreases inp
  {
    match inp
    case StatementInput(_, chain) => ChainVisited(chain)
    case ValueInput(_, t) => if t.Some? then Visited(t.value) else []
  }

  function ChainVisited(bs: seq<Block>): seq<Block>
    decreases bs
  {
    if bs == [] then [] else ChainVisited(bs[..|bs| - 1]) + Visited(bs[|bs| - 1])
  }

  /** Only blocks with an ontology class are ever visited. */
  lemma {:induction false} VisitedManaged(b: Block)
    ensures forall v :: v in Visited(b) ==> Managed(v)
    decreases b
  {
    if Managed(b) {
      InputsVisitedManaged(b.inputs);
    }
  }

  lemma {:induction false} InputsVisitedManaged(ins: seq<Input>)
    ensures forall v :: v in InputsVisited(ins) ==> Managed(v)
    decreases ins
  {
    if ins != [] {
      InputsVisitedManaged(ins[..|ins| - 1]);
      InputVisitedManaged(ins[|ins| - 1]);
    }
  }

  lemma {:induction false} InputVisitedManaged(inp: Input)
    ensures forall v :: v in InputVisited(inp) ==> Managed(v)
    decreases inp
  {
    match inp
    case StatementInput(_, chain) => ChainVisitedManaged(chain);
    case ValueInput(_, t) => if t.Some? { VisitedManaged(t.value); }
  }

  lemma {:induction false} ChainVisitedManaged(bs: seq<Block>)
    ensures forall v :: v in ChainVisited(bs) ==> Managed(v)
    decreases bs
  {
    if bs != [] {
      ChainVisitedManaged(bs[..|bs| - 1]);
      VisitedManaged(bs[|bs| - 1]);
    }
  }

  /** Every visited block is one of the workspace's blocks. */
  lemma {:induction false} VisitedInSubtree(b: Block)
    ensures forall v :: v in Visited(b) ==> v in Subtree(b)
    decreases b
  {
    if Managed(b) {
      InputsVisitedInSubtrees(b.inputs);
    }
  }

  lemma {:induction false} InputsVisitedInSubtrees(ins: seq<Input>)
    ensures forall v :: v in InputsVisited(ins) ==> v in InputsSubtrees(ins)
    decreases ins
  {
    if ins != [] {
      var init, last := ins[..|ins| - 1], ins[|ins| - 1];
      InputsVisitedInSubtrees(init);
      InputVisitedInSubtrees(last);
      InputsSubtreesSnoc(init, last);
      assert init + [last] == ins;
    }
  }

  lemma {:induction false} InputVisitedInSubtrees(inp: Input)
    ensures forall v :: v in InputVisited(inp) ==> v in InputSubtrees(inp)
    decreases inp
  {
    match inp
    case StatementInput(_, chain) => ChainVisitedInSubtrees(chain);
    case ValueInput(_, t) => if t.Some? { VisitedInSubtree(t.value); }
  }

  lemma {:induction false} ChainVisitedInSubtrees(bs: seq<Block>)
    ensures forall v :: v in ChainVisited(bs) ==> v in Subtrees(bs)
    decreases bs
  {
    if bs != [] {
      var init, last := bs[..|bs| - 1], bs[|bs| - 1];
      ChainVisitedInSubtrees(init);
      VisitedInSubtree(last);
      SubtreesAppend(init, [last]);
      assert init + [last] == bs;
      assert Subtrees([last]) == Subtree(last) + Subtrees([]);
    }
  }

  lemma {:induction false} InputsSubtreesSnoc(init: seq<Input>, last: Input)
    ensures InputsSubtrees(init + [last]) == InputsSubtrees(init) + InputSubtrees(last)
  {
    if init == [] {
      assert init + [last] == [last];
      assert [last][1..] == [];
    } else {
      var s := init + [last];
      assert s[0] == init[0];
      assert s[1..] == init[1..] + [last];
      InputsSubtreesSnoc(init[1..], last);
      AppendAssoc(InputSubtrees(init[0]), InputsSubtrees(init[1..]), InputSubtrees(last));
    }
  }
}
