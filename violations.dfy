/**
 * What the validation rules share: the violation record, the walk of a rule over
 * all blocks of the workspace, and the circuit lookups (the equipment chain, the
 * first block connected to a named input).
 */
module Violations {
  import opened Wrappers
  import opened Numbers
  import opened Blocks

  datatype Severity = Error | Warning

  datatype Violation = Violation(severity: Severity, message: string, blockId: string, ruleId: string)

  // ---------------------------------------------------------------------------
  // A rule applied to every block

  /** The violations a per-block check reports, block after block. */
  function FlatMap(bs: seq<Block>, check: Block -> seq<Violation>): seq<Violation> {
    if bs == [] then [] else FlatMap(bs[..|bs| - 1], check) + check(bs[|bs| - 1])
  }

  lemma FlatMapSnoc(bs: seq<Block>, check: Block -> seq<Violation>, i: nat)
    requires i < |bs|
    ensures FlatMap(bs[..i + 1], check) == FlatMap(bs[..i], check) + check(bs[i])
  {
    assert bs[..i + 1][..i] == bs[..i];
  }

  /** A violation is reported exactly when the check reports it for one of the blocks. */
  lemma {:induction false} FlatMapMember(bs: seq<Block>, check: Block -> seq<Violation>, v: Violation)
    ensures v in FlatMap(bs, check) <==> exists i :: 0 <= i < |bs| && v in check(bs[i])
  {
    if bs != [] {
      var init := bs[..|bs| - 1];
      FlatMapMember(init, check, v);
      if v in FlatMap(init, check) {
        var i :| 0 <= i < |init| && v in check(init[i]);
        assert bs[i] == init[i];
      }
      if exists i :: 0 <= i < |bs| && v in check(bs[i]) {
        var i :| 0 <= i < |bs| && v in check(bs[i]);
        if i < |init| {
          assert init[i] == bs[i];
        }
      }
    }
  }

  // ---------------------------------------------------------------------------
  // Circuit lookups

  /** The blocks in the `FEEDSEQUIPMENT` inputs, in order. */
  function Equipment(c: Block): seq<Block> {
    NamedTargets(c.inputs, "FEEDSEQUIPMENT")
  }

  lemma NamedTargetsSnoc(ins: seq<Input>, name: string, j: nat)
    requires j < |ins|
    ensures NamedTargets(ins[..j + 1], name) == NamedTargets(ins[..j], name)
      + (if ins[j].name == name then Targets(ins[j]) else [])
  {
    assert ins[..j + 1][..j] == ins[..j];
  }

  /** The loop that counts a circuit's equipment, input by input and child by child. */
  method CountEquipment(c: Block) returns (count: nat)
    ensures count == |Equipment(c)|
  {
    count := 0;
    var j := 0;
    while j < |c.inputs|
      invariant 0 <= j <= |c.inputs|
      invariant count == |NamedTargets(c.inputs[..j], "FEEDSEQUIPMENT")|
    {
      NamedTargetsSnoc(c.inputs, "FEEDSEQUIPMENT", j);
      if c.inputs[j].name == "FEEDSEQUIPMENT" {
        var chain := Targets(c.inputs[j]);
        var k := 0;
        while k < |chain|
          invariant 0 <= k <= |chain|
          invariant count == |NamedTargets(c.inputs[..j], "FEEDSEQUIPMENT")| + k
        {
          count := count + 1;
          k := k + 1;
        }
      }
      j := j + 1;
    }
    assert c.inputs[..j] == c.inputs;
  }

  /** The loop that stops at the first input named `name` and takes its connected block. */
  method FindFirstTarget(inputs: seq<Input>, name: string) returns (r: Option<Block>)
    ensures r == FirstTarget(inputs, name)
  {
    r := None;
    var j := 0;
    while j < |inputs|
      invariant 0 <= j <= |inputs|
      invariant forall i :: 0 <= i < j ==> inputs[i].name != name
      invariant FirstTarget(inputs[j..], name) == FirstTarget(inputs, name)
    {
      if inputs[j].name == name {
        var ts := Targets(inputs[j]);
        r := if ts == [] then None else Some(ts[0]);
        return;
      }
      assert inputs[j..][1..] == inputs[j + 1..];
      j := j + 1;
    }
  }
}
