/**
 * The Blockly block tree as the core sees it. A block has a type, an id, its
 * named fields (flattened over its inputs' field rows, in order) and its inputs.
 * A statement input holds the chain of blocks reached through `getNextBlock`; a
 * value input holds the block plugged into it, if any. A dummy input carries no
 * connection and behaves like an empty value input everywhere in the core.
 */
module Blocks {
  import opened Wrappers
  import opened Text
  import opened Numbers

  /** A field value as `getValue`/`getFieldValue` report it. `Missing` is null or undefined. */
  datatype Value = Missing | Str(s: string) | Num(n: Number) | Bool(b: bool)

  /** A field; label fields without a name have `name == ""`. */
  datatype Field = Field(name: string, value: Value)

  datatype Block = Block(blockType: string, id: string, fields: seq<Field>, inputs: seq<Input>)

  datatype Input =
    | StatementInput(name: string, chain: seq<Block>)
    | ValueInput(name: string, target: Option<Block>)

  /** The top blocks of a workspace, in `getTopBlocks(true)` order. */
  type Workspace = seq<Block>

  // ---------------------------------------------------------------------------
  // Field values

  /** `getFieldValue(name)`: the value of the first field with that name, or null. */
  function FieldValue(fields: seq<Field>, name: string): (v: Value)
    ensures (forall i :: 0 <= i < |fields| ==> fields[i].name != name) ==> v == Missing
    ensures v != Missing ==> exists i :: 0 <= i < |fields| && fields[i].name == name && fields[i].value == v
    ensures |fields| > 0 && fields[0].name == name ==> v == fields[0].value
    ensures forall i ::
              0 <= i < |fields| && fields[i].name == name && (forall j :: 0 <= j < i ==> fields[j].name != name)
              ==> v == fields[i].value
  {
    if fields == [] then Missing
    else if fields[0].name == name then fields[0].value
    else FieldValue(fields[1..], name)
  }

  /** JavaScript truthiness of a field value. */
  predicate Truthy(v: Value) {
    match v
    case Missing => false
    case Str(s) => s != []
    case Num(n) => NonZero(n)
    case Bool(b) => b
  }

  /** `Number(v)`: null is 0, a boolean is 1 or 0, a string goes through `ParseNum`. */
  function ToNumber(v: Value): (r: Option<Dec>)
    ensures v.Num? ==> r == Some(v.n)
    ensures v.Missing? ==> r == Some(Int(0))
    ensures r.Some? ==> Normal(r.value)
  {
    match v
    case Missing => Some(Int(0))
    case Str(s) => ParseNum(s)
    case Num(n) => Some(n)
    case Bool(b) => Some(Int(if b then 1 else 0))
  }

  /** `Number(v) || fallback`. */
  function NumberOr(v: Value, fallback: Dec): (r: Dec)
    ensures ToNumber(v).Some? && NonZero(ToNumber(v).value) ==> r == ToNumber(v).value
    ensures ToNumber(v).None? || !NonZero(ToNumber(v).value) ==> r == fallback
  {
    OrDefault(ToNumber(v), fallback)
  }

  /** `String(v)` as a template literal renders it. */
  function Display(v: Value): (s: string)
    ensures v.Str? ==> s == v.s
    ensures v.Num? ==> s == Render(v.n)
  {
    match v
    case Missing => "null"
    case Str(s) => s
    case Num(n) => Render(n)
    case Bool(b) => if b then "true" else "false"
  }

  /** `getFieldValue("LABEL") || fallback`, as text. */
  function LabelOr(b: Block, fallback: string): (r: string)
    ensures Truthy(FieldValue(b.fields, "LABEL")) ==> r == Display(FieldValue(b.fields, "LABEL"))
    ensures !Truthy(FieldValue(b.fields, "LABEL")) ==> r == fallback
  {
    var v := FieldValue(b.fields, "LABEL");
    if Truthy(v) then Display(v) else fallback
  }

  // ---------------------------------------------------------------------------
  // Inputs

  /** The blocks an input leads to: a statement chain in order, or the connected block. */
  function Targets(inp: Input): (r: seq<Block>)
    ensures inp.StatementInput? ==> r == inp.chain
    ensures inp.ValueInput? ==> |r| <= 1
  {
    match inp
    case StatementInput(_, chain) => chain
    case ValueInput(_, t) => if t.Some? then [t.value] else []
  }

  /** Every block reached through inputs named `name`, input by input and in chain order. */
  function NamedTargets(inputs: seq<Input>, name: string): seq<Block> {
    if inputs == [] then []
    else
      var last := inputs[|inputs| - 1];
      NamedTargets(inputs[..|inputs| - 1], name) + (if last.name == name then Targets(last) else [])
  }

  /**
   * `connection?.targetBlock()` of the first input named `name` (the loop that
   * stops at the first match): its first target, or none.
   */
  function FirstTarget(inputs: seq<Input>, name: string): (r: Option<Block>)
    ensures (forall i :: 0 <= i < |inputs| ==> inputs[i].name != name) ==> r.None?
    ensures |inputs| > 0 && inputs[0].name == name ==>
      r == (if Targets(inputs[0]) == [] then None else Some(Targets(inputs[0])[0]))
  {
    if inputs == [] then None
    else if inputs[0].name == name then
      (if Targets(inputs[0]) == [] then None else Some(Targets(inputs[0])[0]))
    else FirstTarget(inputs[1..], name)
  }

  // ---------------------------------------------------------------------------
  // All blocks of a workspace

  /** A block followed by every block below it, in pre-order (input order, chain order). */
  function Subtree(b: Block): (r: seq<Block>)
    ensures |r| >= 1 && r[0] == b
    decreases b
  {
    [b] + InputsSubtrees(b.inputs)
  }

  function InputsSubtrees(ins: seq<Input>): seq<Block>
    decreases ins
  {
    if ins == [] then [] else InputSubtrees(ins[0]) + InputsSubtrees(ins[1..])
  }

  /** The blocks below one input: a statement input's chain, or a value input's block. */
  function InputSubtrees(inp: Input): seq<Block>
    decreases inp
  {
    match inp
    case StatementInput(_, chain) => Subtrees(chain)
    case ValueInput(_, t) => if t.Some? then Subtree(t.value) else []
  }

  function Subtrees(bs: seq<Block>): seq<Block>
    decreases bs
  {
    if bs == [] then [] else Subtree(bs[0]) + Subtrees(bs[1..])
  }

  /** `getAllBlocks`: every block of the workspace, each top block's tree in pre-order. */
  function AllBlocks(ws: Workspace): (r: seq<Block>)
    ensures ws != [] ==> |r| >= |ws|
  {
    SubtreesLength(ws);
    Subtrees(ws)
  }

  lemma {:induction false} SubtreesLength(bs: seq<Block>)
    ensures |Subtrees(bs)| >= |bs|
  {
    if bs != [] {
      SubtreesLength(bs[1..]);
    }
  }

  lemma SubtreesAppend(a: seq<Block>, b: seq<Block>)
    ensures Subtrees(a + b) == Subtrees(a) + Subtrees(b)
  {
    if a == [] {
      assert a + b == b;
    } else {
      assert (a + b)[1..] == a[1..] + b;
      SubtreesAppend(a[1..], b);
    }
  }

  /** The top blocks are listed in order among all blocks. */
  lemma TopBlocksListed(ws: Workspace, i: nat)
    requires i < |ws|
    ensures ws[i] in AllBlocks(ws)
  {
    assert ws == ws[..i] + ws[i..];
    SubtreesAppend(ws[..i], ws[i..]);
  }
}
