/**
 * NF C 15-100, wire cross-section: on a core circuit with a protection device,
 * each wiring segment must have at least the cross-section the device's rated
 * current requires: 1.5 mm² up to 10 A, 2.5 mm² up to 20 A, 6 mm² up to 32 A.
 * Above 32 A, or with a zero or unreadable current or section, nothing is checked.
 */
module WireSectionRule {
  import opened Wrappers
  import opened Text
  import opened Numbers
  import opened Blocks
  import opened Violations

  const RuleId: string := "nfc15100-wire-cross-section"

  datatype Band = Band(maxCurrent: Dec, minCrossSection: Dec)

  /** `CURRENT_TO_CROSS_SECTION`, in increasing current. */
  const CurrentToCrossSection: seq<Band> := [Band(Int(10), Dec(15, 1)), Band(Int(20), Dec(25, 1)), Band(Int(32), Int(6))]

  /** `table.find(r => rated <= r.maxCurrent)`: the first band whose maximum covers the current. */
  function FindBand(rated: Dec, table: seq<Band>): (r: Option<Band>)
    ensures r.None? ==> forall i :: 0 <= i < |table| ==> Less(table[i].maxCurrent, rated)
    ensures r.Some? ==> exists i ::
      && 0 <= i < |table| && table[i] == r.value && !Less(table[i].maxCurrent, rated)
      && forall j :: 0 <= j < i ==> Less(table[j].maxCurrent, rated)
  {
    if table == [] then None
    else if !Less(table[0].maxCurrent, rated) then Some(table[0])
    else
      var r := FindBand(rated, table[1..]);
      assert forall i :: 1 <= i < |table| ==> table[i] == table[1..][i - 1];
      r
  }

  /** The section the standard asks for at a given current, read off the bands directly. */
  ghost function RequiredSection(rated: Dec): Option<real> {
    if Real(rated) <= 10.0 then Some(1.5)
    else if Real(rated) <= 20.0 then Some(2.5)
    else if Real(rated) <= 32.0 then Some(6.0)
    else None
  }

  /** The lookup in the table gives the section the standard asks for. */
  lemma FindBandRequired(rated: Dec)
    ensures var band := FindBand(rated, CurrentToCrossSection);
      band.Some? == RequiredSection(rated).Some?
      && (band.Some? ==> Real(band.value.minCrossSection) == RequiredSection(rated).value)
  {
    var t := CurrentToCrossSection;
    LessReal(t[0].maxCurrent, rated);
    LessReal(t[1].maxCurrent, rated);
    LessReal(t[2].maxCurrent, rated);
    assert Real(Dec(15, 1)) == 1.5;
    assert Real(Dec(25, 1)) == 2.5;
    assert t[1..][1..] == [t[2]];
  }

  /** `Number(value) || 0`. */
  function NumberOrZero(v: Value): (r: Dec)
    ensures Normal(r)
  {
    NumberOr(v, Int(0))
  }

  function WireMessage(circuitLabel: string, section: Dec, rated: Dec, needed: Dec): string {
    "Circuit \"" + circuitLabel + "\": " + Render(section) + "mm\U{00B2} wire too small for " + Render(rated)
      + "A, needs at least " + Render(needed) + "mm\U{00B2}."
  }

  /** The check of one wiring segment of a circuit protected at `rated`. */
  function WireCheck(circuitLabel: string, rated: Dec, wiring: Block): (r: seq<Violation>)
    ensures |r| <= 1
  {
    var section := NumberOrZero(FieldValue(wiring.fields, "CROSS_SECTION"));
    if Less(Int(0), section) && Less(Int(0), rated) then
      match FindBand(rated, CurrentToCrossSection)
      case None => []
      case Some(band) =>
        if Less(section, band.minCrossSection) then
          [Violation(Error, WireMessage(circuitLabel, section, rated, band.minCrossSection), wiring.id, RuleId)]
        else []
    else []
  }

  function WireChecks(circuitLabel: string, rated: Dec, wirings: seq<Block>): seq<Violation> {
    if wirings == [] then []
    else WireChecks(circuitLabel, rated, wirings[..|wirings| - 1]) + WireCheck(circuitLabel, rated, wirings[|wirings| - 1])
  }

  /** The wiring segments: the blocks in every `HASWIRING` input, in order. */
  function Wirings(c: Block): seq<Block> {
    NamedTargets(c.inputs, "HASWIRING")
  }

  /** The check for one block: core circuits with a protection device. */
  function WireCircuitCheck(b: Block): (r: seq<Violation>)
    ensures b.blockType != "dhc_circuit" || FirstTarget(b.inputs, "HASPROTECTION").None? ==> r == []
  {
    if b.blockType != "dhc_circuit" then []
    else
      match FirstTarget(b.inputs, "HASPROTECTION")
      case None => []
      case Some(device) =>
        WireChecks(LabelOr(b, "unnamed"), NumberOrZero(FieldValue(device.fields, "RATED_CURRENT")), Wirings(b))
  }

  /**
   * A segment is reported exactly when its section and the current are both
   * positive, the current has a required section, and the segment's section is
   * below it; the report is an error on the segment.
   */
  lemma WireCheckMeaning(circuitLabel: string, rated: Dec, wiring: Block)
    ensures var section := Real(NumberOrZero(FieldValue(wiring.fields, "CROSS_SECTION")));
      var needed := RequiredSection(rated);
      && (WireCheck(circuitLabel, rated, wiring) != [] <==>
        0.0 < section && 0.0 < Real(rated) && needed.Some? && section < needed.value)
      && (WireCheck(circuitLabel, rated, wiring) != [] ==>
        WireCheck(circuitLabel, rated, wiring)[0].blockId == wiring.id
        && WireCheck(circuitLabel, rated, wiring)[0].severity == Error
        && WireCheck(circuitLabel, rated, wiring)[0].ruleId == RuleId)
  {
    var section := NumberOrZero(FieldValue(wiring.fields, "CROSS_SECTION"));
    LessReal(Int(0), section);
    LessReal(Int(0), rated);
    FindBandRequired(rated);
    var band := FindBand(rated, CurrentToCrossSection);
    if band.Some? {
      LessReal(section, band.value.minCrossSection);
    }
  }

  lemma WireChecksSnoc(circuitLabel: string, rated: Dec, ws: seq<Block>, k: nat)
    requires k < |ws|
    ensures WireChecks(circuitLabel, rated, ws[..k + 1]) == WireChecks(circuitLabel, rated, ws[..k]) + WireCheck(circuitLabel, rated, ws[k])
  {
    assert ws[..k + 1][..k] == ws[..k];
  }

  lemma {:induction false} WireChecksAppend(circuitLabel: string, rated: Dec, a: seq<Block>, b: seq<Block>)
    ensures WireChecks(circuitLabel, rated, a + b) == WireChecks(circuitLabel, rated, a) + WireChecks(circuitLabel, rated, b)
    decreases |b|
  {
    if b == [] {
      assert a + b == a;
    } else {
      var init, last := b[..|b| - 1], b[|b| - 1];
      assert (a + b)[..|a + b| - 1] == a + init;
      assert (a + b)[|a + b| - 1] == last;
      WireChecksAppend(circuitLabel, rated, a, init);
      AppendAssoc(WireChecks(circuitLabel, rated, a), WireChecks(circuitLabel, rated, init), WireCheck(circuitLabel, rated, last));
    }
  }

  /** Every report of a segment check is an error of this rule on one of the segments. */
  lemma {:induction false} WireChecksReports(circuitLabel: string, rated: Dec, wirings: seq<Block>, v: Violation)
    requires v in WireChecks(circuitLabel, rated, wirings)
    ensures v.ruleId == RuleId && v.severity == Error
    ensures exists w :: w in wirings && v.blockId == w.id
  {
    var init, last := wirings[..|wirings| - 1], wirings[|wirings| - 1];
    if v in WireChecks(circuitLabel, rated, init) {
      WireChecksReports(circuitLabel, rated, init, v);
      var w :| w in init && v.blockId == w.id;
      assert w in wirings;
    } else {
      WireCheckMeaning(circuitLabel, rated, last);
    }
  }

  /** The loop over the `HASWIRING` inputs of one circuit. */
  method CheckWirings(circuitLabel: string, rated: Dec, inputs: seq<Input>) returns (found: seq<Violation>)
    ensures found == WireChecks(circuitLabel, rated, NamedTargets(inputs, "HASWIRING"))
  {
    found := [];
    var j := 0;
    while j < |inputs|
      invariant 0 <= j <= |inputs|
      invariant found == WireChecks(circuitLabel, rated, NamedTargets(inputs[..j], "HASWIRING"))
    {
      ghost var before := NamedTargets(inputs[..j], "HASWIRING");
      NamedTargetsSnoc(inputs, "HASWIRING", j);
      if inputs[j].name == "HASWIRING" {
        var chain := Targets(inputs[j]);
        var more := CheckSegments(circuitLabel, rated, chain);
        WireChecksAppend(circuitLabel, rated, before, chain);
        found := found + more;
      } else {
        assert before + [] == before;
      }
      j := j + 1;
    }
    assert inputs[..j] == inputs;
  }

  /** The loop over one chain of wiring segments. */
  method CheckSegments(circuitLabel: string, rated: Dec, chain: seq<Block>) returns (found: seq<Violation>)
    ensures found == WireChecks(circuitLabel, rated, chain)
  {
    found := [];
    var k := 0;
    while k < |chain|
      invariant 0 <= k <= |chain|
      invariant found == WireChecks(circuitLabel, rated, chain[..k])
    {
      WireChecksSnoc(circuitLabel, rated, chain, k);
      var wiring := chain[k];
      var crossSection := NumberOr(FieldValue(wiring.fields, "CROSS_SECTION"), Int(0));
      if Less(Int(0), crossSection) && Less(Int(0), rated) {
        var band := FindBand(rated, CurrentToCrossSection);
        if band.Some? && Less(crossSection, band.value.minCrossSection) {
          var message := WireMessage(circuitLabel, crossSection, rated, band.value.minCrossSection);
          found := found + [Violation(Error, message, wiring.id, RuleId)];
        }
      }
      k := k + 1;
    }
    assert chain[..k] == chain;
  }

  /** `validateWireCrossSection`: the core circuits among all blocks, in order. */
  method ValidateWireCrossSection(ws: Workspace) returns (vs: seq<Violation>)
    ensures vs == FlatMap(AllBlocks(ws), WireCircuitCheck)
  {
    vs := [];
    var all := AllBlocks(ws);
    var i := 0;
    while i < |all|
      invariant 0 <= i <= |all|
      invariant vs == FlatMap(all[..i], WireCircuitCheck)
    {
      FlatMapSnoc(all, WireCircuitCheck, i);
      var circuit := all[i];
      i := i + 1;
      if circuit.blockType != "dhc_circuit" {
        continue;
      }
      var circuitLabel := LabelOr(circuit, "unnamed");
      var device := FindFirstTarget(circuit.inputs, "HASPROTECTION");
      if device.None? {
        continue;
      }
      var ratedCurrent := NumberOr(FieldValue(device.value.fields, "RATED_CURRENT"), Int(0));
      var found := CheckWirings(circuitLabel, ratedCurrent, circuit.inputs);
      vs := vs + found;
    }
    assert all[..i] == all;
  }

  /** Every report is about a wiring segment of a protected core circuit. */
  lemma ReportsFromSegments(all: seq<Block>, v: Violation)
    requires v in FlatMap(all, WireCircuitCheck)
    ensures exists c ::
      && c in all && c.blockType == "dhc_circuit" && FirstTarget(c.inputs, "HASPROTECTION").Some?
      && v in WireCircuitCheck(c)
    ensures v.ruleId == RuleId && v.severity == Error
  {
    FlatMapMember(all, WireCircuitCheck, v);
    var i :| 0 <= i < |all| && v in WireCircuitCheck(all[i]);
    assert all[i] in all;
    var c := all[i];
    var device := FirstTarget(c.inputs, "HASPROTECTION").value;
    WireChecksReports(LabelOr(c, "unnamed"), NumberOrZero(FieldValue(device.fields, "RATED_CURRENT")), Wirings(c), v);
  }
}
