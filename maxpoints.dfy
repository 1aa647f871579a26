/**
 * NF C 15-100, maximum points per circuit: a circuit feeding more equipment than
 * its `MAX_POINTS` field allows (8 when the field is missing, zero or not a
 * number) is an error.
 */
module MaxPointsRule {
  import opened Text
  import opened Numbers
  import opened Blocks
  import opened Violations

  const RuleId: string := "nfc15100-max-points"

  /** The core circuit and every NF C 15-100 module block count as circuits. */
  predicate IsCircuitBlock(b: Block) {
    b.blockType == "dhc_circuit" || StartsWith(b.blockType, "dhc_nfc15100_")
  }

  /** `Number(MAX_POINTS) || 8`: never zero, and 8 when the field is missing. */
  function MaxPoints(c: Block): (r: Dec)
    ensures Normal(r) && NonZero(r)
    ensures FieldValue(c.fields, "MAX_POINTS") == Missing ==> r == Int(8)
  {
    NumberOr(FieldValue(c.fields, "MAX_POINTS"), Int(8))
  }

  /** The error text: the circuit's label, the number of points and the maximum, in that order. */
  function PointsMessage(circuitLabel: string, count: nat, max: Dec): (m: string)
    ensures Contains(m, circuitLabel) && Contains(m, Render(Int(count))) && Contains(m, Render(max))
  {
    var n, mx := Render(Int(count)), Render(max);
    var head, middle := "Circuit \"", " points but max is ";
    var m := head + circuitLabel + "\" has " + n + middle + mx + ".";
    assert m == head + circuitLabel + ("\" has " + n + middle + mx + ".");
    ContainsPart(head, circuitLabel, "\" has " + n + middle + mx + ".");
    assert m == head + circuitLabel + "\" has " + n + (middle + mx + ".");
    ContainsPart(head + circuitLabel + "\" has ", n, middle + mx + ".");
    ContainsPart(head + circuitLabel + "\" has " + n + middle, mx, ".");
    m
  }

  /** The check for one block: one error when a circuit feeds more equipment than its maximum. */
  function PointsCheck(b: Block): (r: seq<Violation>)
    ensures |r| <= 1
    ensures r != [] <==> IsCircuitBlock(b) && Real(MaxPoints(b)) < |Equipment(b)| as real
    ensures r != [] ==> r[0].severity == Error && r[0].blockId == b.id && r[0].ruleId == RuleId
    ensures r != [] ==> Contains(r[0].message, Render(Int(|Equipment(b)|))) && Contains(r[0].message, Render(MaxPoints(b)))
  {
    LessReal(MaxPoints(b), Int(|Equipment(b)|));
    if IsCircuitBlock(b) && Less(MaxPoints(b), Int(|Equipment(b)|)) then
      [Violation(Error, PointsMessage(LabelOr(b, "unnamed"), |Equipment(b)|, MaxPoints(b)), b.id, RuleId)]
    else []
  }

  /** `validateMaxPointsPerCircuit`: the circuits among all blocks, in order. */
  method ValidateMaxPointsPerCircuit(ws: Workspace) returns (vs: seq<Violation>)
    ensures vs == FlatMap(AllBlocks(ws), PointsCheck)
  {
    vs := [];
    var all := AllBlocks(ws);
    var i := 0;
    while i < |all|
      invariant 0 <= i <= |all|
      invariant vs == FlatMap(all[..i], PointsCheck)
    {
      FlatMapSnoc(all, PointsCheck, i);
      var circuit := all[i];
      if IsCircuitBlock(circuit) {
        var maxPoints := NumberOr(FieldValue(circuit.fields, "MAX_POINTS"), Int(8));
        var equipmentCount := CountEquipment(circuit);
        if Less(maxPoints, Int(equipmentCount)) {
          var message := PointsMessage(LabelOr(circuit, "unnamed"), equipmentCount, maxPoints);
          vs := vs + [Violation(Error, message, circuit.id, RuleId)];
        }
      }
      i := i + 1;
    }
    assert all[..i] == all;
  }

  /** Every overloaded circuit is reported, as an error on the circuit. */
  lemma OverloadReported(all: seq<Block>, c: Block)
    requires c in all && IsCircuitBlock(c) && Real(MaxPoints(c)) < |Equipment(c)| as real
    ensures exists v ::
      && v in FlatMap(all, PointsCheck) && v.blockId == c.id && v.severity == Error && v.ruleId == RuleId
      && Contains(v.message, Render(Int(|Equipment(c)|))) && Contains(v.message, Render(MaxPoints(c)))
  {
    var i :| 0 <= i < |all| && all[i] == c;
    var v := PointsCheck(c)[0];
    FlatMapMember(all, PointsCheck, v);
  }

  /** Only overloaded circuits are reported. */
  lemma OnlyOverloadReported(all: seq<Block>, v: Violation)
    requires v in FlatMap(all, PointsCheck)
    ensures exists c ::
      && c in all && IsCircuitBlock(c) && Real(MaxPoints(c)) < |Equipment(c)| as real
      && v.blockId == c.id && v.severity == Error && v.ruleId == RuleId
  {
    FlatMapMember(all, PointsCheck, v);
    var i :| 0 <= i < |all| && v in PointsCheck(all[i]);
    assert all[i] in all;
  }
}
