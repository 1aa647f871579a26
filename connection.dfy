/**
 * The nesting checker: a soft check of the parent a block sits in. Equipment
 * belongs in a space or a circuit, a protection device in a circuit, a circuit in
 * a distribution board, a space in a floor or area, and a technical space (or the
 * GTL) in a floor, area or space. Every issue is a warning.
 */
module ConnectionCheck {
  import opened Wrappers
  import opened Text
  import opened Blocks
  import opened Violations

  datatype Issue = Issue(message: string, severity: Severity)

  /** `isCircuitType`: the core circuit or any NF C 15-100 module type. */
  predicate IsCircuitType(t: string) {
    t == "dhc_circuit" || StartsWith(t, "dhc_nfc15100_")
  }

  /** `isElectricalTechnicalSpaceType`: the core technical space or the GTL and its variants. */
  predicate IsElectricalTechnicalSpaceType(t: string) {
    t == "dhc_electrical_technical_space" || StartsWith(t, "dhc_nfc15100_gtl")
  }

  /** Every GTL type is also a circuit type, since both tests accept its prefix. */
  lemma GtlIsCircuit(t: string)
    requires StartsWith(t, "dhc_nfc15100_gtl")
    ensures IsCircuitType(t) && IsElectricalTechnicalSpaceType(t)
  {
    assert t[..|"dhc_nfc15100_gtl"|][..|"dhc_nfc15100_"|] == t[..|"dhc_nfc15100_"|];
  }

  const EquipmentTypes: seq<string> := ["dhc_socket", "dhc_switch", "dhc_light", "dhc_heater", "dhc_equipment"]

  /** `getLabel`: LABEL, else the type with its first `dhc_` removed and every `_` made a space. */
  function GetLabel(b: Block): (r: string)
    ensures !Truthy(FieldValue(b.fields, "LABEL")) && StartsWith(b.blockType, "dhc_") ==>
      r == ReplaceChar(b.blockType[4..], '_', ' ')
    ensures !Truthy(FieldValue(b.fields, "LABEL")) ==> '_' !in r
  {
    LabelOr(b, ReplaceChar(ReplaceFirst(b.blockType, "dhc_", ""), '_', ' '))
  }

  /** The fixed wording of the five warnings. */
  const EquipmentText := " should be inside a Space or Circuit, not "
  const ProtectionText := " should be attached to a Circuit."
  const CircuitText := " should be inside a Distribution Board."
  const SpaceText := " should be inside a Floor or Area."
  const TechnicalSpaceText := " should be inside a Floor, Area, or Space."

  function EquipmentMessage(b: Block, parent: Block): string {
    GetLabel(b) + EquipmentText + GetLabel(parent) + "."
  }

  function ProtectionMessage(b: Block): string {
    GetLabel(b) + ProtectionText
  }

  function CircuitMessage(b: Block): string {
    GetLabel(b) + CircuitText
  }

  function SpaceMessage(b: Block): string {
    GetLabel(b) + SpaceText
  }

  function TechnicalSpaceMessage(b: Block): string {
    GetLabel(b) + TechnicalSpaceText
  }

  /** The five checks of `checkBlockContext`, each an issue or nothing, in order. */
  function EquipmentIssue(b: Block, parent: Block): (r: seq<Issue>)
    ensures |r| <= 1 && AllWarnings(r)
  {
    if b.blockType in EquipmentTypes && parent.blockType !in ["dhc_space", "dhc_circuit"] && !IsCircuitType(parent.blockType)
    then [Issue(EquipmentMessage(b, parent), Warning)] else []
  }

  function ProtectionIssue(b: Block, parent: Block): (r: seq<Issue>)
    ensures |r| <= 1 && AllWarnings(r)
  {
    if b.blockType == "dhc_protection_device" && !IsCircuitType(parent.blockType)
    then [Issue(ProtectionMessage(b), Warning)] else []
  }

  function CircuitIssue(b: Block, parent: Block): (r: seq<Issue>)
    ensures |r| <= 1 && AllWarnings(r)
  {
    if IsCircuitType(b.blockType) && parent.blockType != "dhc_distribution_board"
    then [Issue(CircuitMessage(b), Warning)] else []
  }

  function SpaceIssue(b: Block, parent: Block): (r: seq<Issue>)
    ensures |r| <= 1 && AllWarnings(r)
  {
    if b.blockType == "dhc_space" && parent.blockType != "dhc_floor" && parent.blockType != "dhc_area"
    then [Issue(SpaceMessage(b), Warning)] else []
  }

  function TechnicalSpaceIssue(b: Block, parent: Block): (r: seq<Issue>)
    ensures |r| <= 1 && AllWarnings(r)
  {
    if IsElectricalTechnicalSpaceType(b.blockType) && parent.blockType !in ["dhc_floor", "dhc_area", "dhc_space"]
    then [Issue(TechnicalSpaceMessage(b), Warning)] else []
  }

  /** What `checkBlockContext` reports for a block and its parent, if it has one. */
  function ContextIssues(b: Block, parent: Option<Block>): (r: seq<Issue>)
    ensures parent.None? ==> r == []
    ensures AllWarnings(r)
  {
    if parent.None? then []
    else
      var p := parent.value;
      var e, d, c, s, g := EquipmentIssue(b, p), ProtectionIssue(b, p), CircuitIssue(b, p), SpaceIssue(b, p), TechnicalSpaceIssue(b, p);
      WarningsAppend(e, d);
      WarningsAppend(e + d, c);
      WarningsAppend(e + d + c, s);
      WarningsAppend(e + d + c + s, g);
      e + d + c + s + g
  }

  predicate AllWarnings(issues: seq<Issue>) {
    forall i :: 0 <= i < |issues| ==> issues[i].severity == Warning
  }

  lemma WarningsAppend(a: seq<Issue>, b: seq<Issue>)
    requires AllWarnings(a) && AllWarnings(b)
    ensures AllWarnings(a + b)
  {
  }

  /** Two strings that differ at position `k` cannot be prefixes of one another. */
  lemma DifferAt(t: string, p: string, k: nat)
    requires k < |t| && k < |p| && t[k] != p[k]
    ensures !StartsWith(t, p)
  {
    if |p| <= |t| {
      assert t[..|p|][k] != p[k];
    }
  }

  lemma EquipmentNotCircuit(t: string)
    requires t in EquipmentTypes
    ensures !IsCircuitType(t) && !IsElectricalTechnicalSpaceType(t) && t != "dhc_space" && t != "dhc_protection_device"
  {
    DifferAt(t, "dhc_nfc15100_", 4);
    DifferAt(t, "dhc_nfc15100_gtl", 4);
  }

  /** The core types of the other checks are not circuit types. */
  lemma CoreTypesNotCircuit()
    ensures !IsCircuitType("dhc_protection_device") && !IsCircuitType("dhc_space")
    ensures !IsCircuitType("dhc_electrical_technical_space")
    ensures !IsElectricalTechnicalSpaceType("dhc_protection_device") && !IsElectricalTechnicalSpaceType("dhc_space")
  {
    DifferAt("dhc_protection_device", "dhc_nfc15100_", 4);
    DifferAt("dhc_space", "dhc_nfc15100_", 4);
    DifferAt("dhc_electrical_technical_space", "dhc_nfc15100_", 4);
    DifferAt("dhc_protection_device", "dhc_nfc15100_gtl", 4);
    DifferAt("dhc_space", "dhc_nfc15100_gtl", 4);
  }

  /**
   * At most two issues per block: only a type that is both a circuit and a
   * technical space (the GTL family) can fail two checks.
   */
  lemma AtMostTwoIssues(b: Block, parent: Option<Block>)
    ensures |ContextIssues(b, parent)| <= 2
    ensures |ContextIssues(b, parent)| == 2 ==> IsCircuitType(b.blockType) && IsElectricalTechnicalSpaceType(b.blockType)
  {
    CoreTypesNotCircuit();
    if b.blockType in EquipmentTypes {
      EquipmentNotCircuit(b.blockType);
    }
  }

  /**
   * A GTL block under any parent gets at least one warning: as a circuit it must
   * sit in a distribution board, as a technical space in a floor, area or space.
   */
  lemma GtlAlwaysWarned(b: Block, parent: Block)
    requires StartsWith(b.blockType, "dhc_nfc15100_gtl")
    ensures ContextIssues(b, Some(parent)) != []
    ensures parent.blockType !in ["dhc_distribution_board", "dhc_floor", "dhc_area", "dhc_space"] ==>
      |ContextIssues(b, Some(parent))| == 2
  {
    GtlIsCircuit(b.blockType);
    var t := b.blockType;
    assert t[4] == 'n';
    assert t != "dhc_space" && t != "dhc_protection_device" && t !in EquipmentTypes;
    assert EquipmentIssue(b, parent) == [] && ProtectionIssue(b, parent) == [] && SpaceIssue(b, parent) == [];
    var c, g := CircuitIssue(b, parent), TechnicalSpaceIssue(b, parent);
    assert ContextIssues(b, Some(parent)) == [] + [] + c + [] + g;
    assert c == [] ==> parent.blockType == "dhc_distribution_board";
    assert c == [] ==> g != [];
  }

  /** Equipment is warned about exactly when its parent is neither a space nor a circuit type. */
  lemma EquipmentWarned(b: Block, parent: Block)
    requires b.blockType in EquipmentTypes
    ensures ContextIssues(b, Some(parent)) != [] <==> parent.blockType != "dhc_space" && !IsCircuitType(parent.blockType)
    ensures ContextIssues(b, Some(parent)) != [] ==> ContextIssues(b, Some(parent)) == [Issue(EquipmentMessage(b, parent), Warning)]
  {
    EquipmentNotCircuit(b.blockType);
  }

  /** A protection device is warned about exactly when its parent is not a circuit type. */
  lemma ProtectionWarned(b: Block, parent: Block)
    requires b.blockType == "dhc_protection_device"
    ensures ContextIssues(b, Some(parent)) == (if IsCircuitType(parent.blockType) then [] else [Issue(ProtectionMessage(b), Warning)])
  {
    CoreTypesNotCircuit();
    assert b.blockType !in EquipmentTypes;
  }

  /** A space is warned about exactly when its parent is neither a floor nor an area. */
  lemma SpaceWarned(b: Block, parent: Block)
    requires b.blockType == "dhc_space"
    ensures ContextIssues(b, Some(parent)) != [] <==> parent.blockType != "dhc_floor" && parent.blockType != "dhc_area"
  {
    CoreTypesNotCircuit();
    assert b.blockType !in EquipmentTypes;
  }

  /** A circuit that is not a GTL type is warned about exactly when its parent is not a distribution board. */
  lemma CircuitWarned(b: Block, parent: Block)
    requires IsCircuitType(b.blockType) && !IsElectricalTechnicalSpaceType(b.blockType)
    ensures ContextIssues(b, Some(parent))
      == (if parent.blockType == "dhc_distribution_board" then [] else [Issue(CircuitMessage(b), Warning)])
  {
    CoreTypesNotCircuit();
    if b.blockType in EquipmentTypes {
      EquipmentNotCircuit(b.blockType);
    }
  }

  /** The core technical space is warned about exactly when its parent is not a floor, area or space. */
  lemma TechnicalSpaceWarned(b: Block, parent: Block)
    requires b.blockType == "dhc_electrical_technical_space"
    ensures ContextIssues(b, Some(parent))
      == (if parent.blockType in ["dhc_floor", "dhc_area", "dhc_space"] then [] else [Issue(TechnicalSpaceMessage(b), Warning)])
  {
    CoreTypesNotCircuit();
    assert b.blockType !in EquipmentTypes;
  }

  /** The loop-free body of `checkBlockContext`: five guarded pushes into `issues`. */
  method CheckBlockContext(b: Block, parent: Option<Block>) returns (issues: seq<Issue>)
    ensures issues == ContextIssues(b, parent)
  {
    issues := [];
    if parent.None? {
      return;
    }
    var p := parent.value;
    var t := b.blockType;
    if t in EquipmentTypes {
      var validParents := ["dhc_space", "dhc_circuit"];
      if p.blockType !in validParents && !IsCircuitType(p.blockType) {
        issues := issues + [Issue(EquipmentMessage(b, p), Warning)];
      }
    }
    assert issues == EquipmentIssue(b, p);
    ghost var before := issues;
    if t == "dhc_protection_device" {
      if !IsCircuitType(p.blockType) {
        issues := issues + [Issue(ProtectionMessage(b), Warning)];
      }
    }
    assert issues == before + ProtectionIssue(b, p);
    before := issues;
    if IsCircuitType(t) {
      if p.blockType != "dhc_distribution_board" {
        issues := issues + [Issue(CircuitMessage(b), Warning)];
      }
    }
    assert issues == before + CircuitIssue(b, p);
    before := issues;
    if t == "dhc_space" {
      if p.blockType != "dhc_floor" && p.blockType != "dhc_area" {
        issues := issues + [Issue(SpaceMessage(b), Warning)];
      }
    }
    assert issues == before + SpaceIssue(b, p);
    before := issues;
    if IsElectricalTechnicalSpaceType(t) {
      var validParents := ["dhc_floor", "dhc_area", "dhc_space"];
      if p.blockType !in validParents {
        issues := issues + [Issue(TechnicalSpaceMessage(b), Warning)];
      }
    }
    assert issues == before + TechnicalSpaceIssue(b, p);
  }
}
