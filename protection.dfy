/**
 * NF C 15-100, protection device sizing: every core circuit needs a protection
 * device; its rated current must not exceed 10 A on a lighting circuit or 16 A on
 * a socket circuit, and a dedicated circuit usually needs at least 20 A.
 */
module ProtectionRule {
  import opened Wrappers
  import opened Numbers
  import opened Blocks
  import opened Violations

  const MissingId: string := "nfc15100-protection-missing"
  const SizingId: string := "nfc15100-protection-sizing"

  datatype CircuitKind = Lighting | Sockets | Dedicated | Mixed

  // ---------------------------------------------------------------------------
  // Circuit type, from the equipment it feeds

  /** The block types among `bs`. */
  function TypesOf(bs: seq<Block>): (r: set<string>)
    ensures forall t :: t in r <==> exists i :: 0 <= i < |bs| && bs[i].blockType == t
  {
    if bs == [] then {}
    else
      var init := bs[..|bs| - 1];
      assert forall i :: 0 <= i < |init| ==> init[i] == bs[i];
      TypesOf(init) + {bs[|bs| - 1].blockType}
  }

  lemma {:induction false} TypesOfAppend(a: seq<Block>, b: seq<Block>)
    ensures TypesOf(a + b) == TypesOf(a) + TypesOf(b)
    decreases |b|
  {
    if b == [] {
      assert a + b == a;
    } else {
      assert (a + b)[..|a + b| - 1] == a + b[..|b| - 1];
      TypesOfAppend(a, b[..|b| - 1]);
    }
  }

  lemma TypesOfSnoc(bs: seq<Block>, k: nat)
    requires k < |bs|
    ensures TypesOf(bs[..k + 1]) == TypesOf(bs[..k]) + {bs[k].blockType}
  {
    assert bs[..k + 1][..k] == bs[..k];
  }

  /** A light makes a lighting circuit, then a socket a socket circuit, then a heater or a single type a dedicated one. */
  function KindOf(types: set<string>): CircuitKind {
    if "dhc_light" in types then Lighting
    else if "dhc_socket" in types then Sockets
    else if "dhc_heater" in types then Dedicated
    else if |types| == 1 then Dedicated
    else Mixed
  }

  function CircuitKindOf(c: Block): CircuitKind {
    KindOf(TypesOf(Equipment(c)))
  }

  /** The loop of `inferCircuitType` that collects the equipment types, child by child. */
  method CollectEquipmentTypes(c: Block) returns (types: set<string>)
    ensures types == TypesOf(Equipment(c))
  {
    types := {};
    var j := 0;
    while j < |c.inputs|
      invariant 0 <= j <= |c.inputs|
      invariant types == TypesOf(NamedTargets(c.inputs[..j], "FEEDSEQUIPMENT"))
    {
      ghost var before := NamedTargets(c.inputs[..j], "FEEDSEQUIPMENT");
      NamedTargetsSnoc(c.inputs, "FEEDSEQUIPMENT", j);
      if c.inputs[j].name == "FEEDSEQUIPMENT" {
        var chain := Targets(c.inputs[j]);
        var more := ChainTypes(chain);
        TypesOfAppend(before, chain);
        types := types + more;
      } else {
        assert before + [] == before;
      }
      j := j + 1;
    }
    assert c.inputs[..j] == c.inputs;
  }

  /** The inner loop of `inferCircuitType`: the types along one chain of equipment. */
  method ChainTypes(chain: seq<Block>) returns (types: set<string>)
    ensures types == TypesOf(chain)
  {
    types := {};
    var k := 0;
    while k < |chain|
      invariant 0 <= k <= |chain|
      invariant types == TypesOf(chain[..k])
    {
      TypesOfSnoc(chain, k);
      types := types + {chain[k].blockType};
      k := k + 1;
    }
    assert chain[..k] == chain;
  }

  /** `inferCircuitType`. */
  method InferCircuitType(c: Block) returns (kind: CircuitKind)
    ensures kind == CircuitKindOf(c)
  {
    var types := CollectEquipmentTypes(c);
    if "dhc_light" in types {
      return Lighting;
    }
    if "dhc_socket" in types {
      return Sockets;
    }
    if "dhc_heater" in types {
      return Dedicated;
    }
    if |types| == 1 {
      return Dedicated;
    }
    return Mixed;
  }

  /** The circuit feeds a piece of equipment of type `t`. */
  predicate Feeds(c: Block, t: string) {
    exists e :: e in Equipment(c) && e.blockType == t
  }

  /**
   * What each circuit type means in terms of the equipment it feeds: a light makes
   * a lighting circuit; otherwise a socket a socket circuit; otherwise a heater, or
   * equipment all of one type, a dedicated circuit; anything else is mixed.
   */
  lemma CircuitKindMeaning(c: Block)
    ensures CircuitKindOf(c) == Lighting <==> Feeds(c, "dhc_light")
    ensures CircuitKindOf(c) == Sockets <==> !Feeds(c, "dhc_light") && Feeds(c, "dhc_socket")
    ensures CircuitKindOf(c) == Dedicated <==>
      !Feeds(c, "dhc_light") && !Feeds(c, "dhc_socket")
      && (Feeds(c, "dhc_heater") || |TypesOf(Equipment(c))| == 1)
    ensures CircuitKindOf(c) == Mixed <==>
      !Feeds(c, "dhc_light") && !Feeds(c, "dhc_socket") && !Feeds(c, "dhc_heater")
      && |TypesOf(Equipment(c))| != 1
    ensures Equipment(c) == [] ==> CircuitKindOf(c) == Mixed
  {
    var es := Equipment(c);
    var types := TypesOf(es);
    forall t ensures t in types <==> Feeds(c, t) {
      if t in types {
        var i :| 0 <= i < |es| && es[i].blockType == t;
        assert es[i] in es;
      }
    }
  }

  /** Equipment all of one type makes a dedicated circuit, unless that type is a light or a socket. */
  lemma SingleTypeDedicated(c: Block)
    requires Equipment(c) != []
    requires forall e :: e in Equipment(c) ==> e.blockType == Equipment(c)[0].blockType
    requires Equipment(c)[0].blockType !in {"dhc_light", "dhc_socket"}
    ensures CircuitKindOf(c) == Dedicated
  {
    var es := Equipment(c);
    assert TypesOf(es) == {es[0].blockType} by {
      forall t | t in TypesOf(es) ensures t == es[0].blockType {
        var i :| 0 <= i < |es| && es[i].blockType == t;
        assert es[i] in es;
      }
    }
  }

  // ---------------------------------------------------------------------------
  // The check of one circuit

  /** The rating each circuit type expects: a maximum for lighting and sockets, a minimum for dedicated circuits. */
  function ExpectedRating(kind: CircuitKind): Option<Dec> {
    match kind
    case Lighting => Some(Int(10))
    case Sockets => Some(Int(16))
    case Dedicated => Some(Int(20))
    case Mixed => None
  }

  /** `Number(RATED_CURRENT) || 0` of the protection device. */
  function RatedCurrent(device: Block): (r: Dec)
    ensures Normal(r)
  {
    NumberOr(FieldValue(device.fields, "RATED_CURRENT"), Int(0))
  }

  function MissingMessage(circuitLabel: string): string {
    "Circuit \"" + circuitLabel + "\" has no protection device."
  }

  function SizingMessage(circuitLabel: string, kind: CircuitKind, rated: Dec): string {
    var head := "Circuit \"" + circuitLabel + "\" ";
    match kind
    case Lighting => head + "(lighting) has " + Render(rated) + "A breaker, max 10A required."
    case Sockets => head + "(sockets) has " + Render(rated) + "A breaker, max 16A required."
    case _ => head + "(dedicated) has " + Render(rated) + "A breaker, typically needs 20A or 32A."
  }

  /** The sizing check of a circuit of type `kind` protected by `device`. */
  function SizingCheck(circuitLabel: string, kind: CircuitKind, device: Block): seq<Violation> {
    var rated := RatedCurrent(device);
    if kind == Lighting && Less(Int(10), rated) then
      [Violation(Error, SizingMessage(circuitLabel, kind, rated), device.id, SizingId)]
    else if kind == Sockets && Less(Int(16), rated) then
      [Violation(Error, SizingMessage(circuitLabel, kind, rated), device.id, SizingId)]
    else if kind == Dedicated && Less(rated, Int(20)) then
      [Violation(Warning, SizingMessage(circuitLabel, kind, rated), device.id, SizingId)]
    else []
  }

  /** The check for one block: only core circuits are checked. */
  function ProtectionCheck(b: Block): (r: seq<Violation>)
    ensures |r| <= 1
    ensures b.blockType != "dhc_circuit" ==> r == []
    ensures b.blockType == "dhc_circuit" && FirstTarget(b.inputs, "HASPROTECTION").None? ==>
      r == [Violation(Warning, MissingMessage(LabelOr(b, "unnamed")), b.id, MissingId)]
  {
    if b.blockType != "dhc_circuit" then []
    else
      var circuitLabel := LabelOr(b, "unnamed");
      match FirstTarget(b.inputs, "HASPROTECTION")
      case None => [Violation(Warning, MissingMessage(circuitLabel), b.id, MissingId)]
      case Some(device) => SizingCheck(circuitLabel, CircuitKindOf(b), device)
  }

  /**
   * With a protection device, a circuit is reported exactly when its rating breaks
   * the expected rating of its type: above it for lighting and sockets (an error),
   * below it for a dedicated circuit (a warning). The report is on the device.
   */
  lemma SizingMatchesExpected(c: Block)
    requires c.blockType == "dhc_circuit" && FirstTarget(c.inputs, "HASPROTECTION").Some?
    ensures var device := FirstTarget(c.inputs, "HASPROTECTION").value;
      var kind, rated := CircuitKindOf(c), Real(RatedCurrent(device));
      && (ProtectionCheck(c) != [] <==>
        || (kind in {Lighting, Sockets} && Real(ExpectedRating(kind).value) < rated)
        || (kind == Dedicated && rated < Real(ExpectedRating(kind).value)))
      && (ProtectionCheck(c) != [] ==>
        && ProtectionCheck(c)[0].blockId == device.id
        && ProtectionCheck(c)[0].ruleId == SizingId
        && ProtectionCheck(c)[0].severity == (if kind == Dedicated then Warning else Error))
  {
    var device := FirstTarget(c.inputs, "HASPROTECTION").value;
    var rated := RatedCurrent(device);
    LessReal(Int(10), rated);
    LessReal(Int(16), rated);
    LessReal(rated, Int(20));
  }

  /** `validateProtectionDeviceSizing`: the core circuits among all blocks, in order. */
  method ValidateProtectionDeviceSizing(ws: Workspace) returns (vs: seq<Violation>)
    ensures vs == FlatMap(AllBlocks(ws), ProtectionCheck)
  {
    vs := [];
    var all := AllBlocks(ws);
    var i := 0;
    while i < |all|
      invariant 0 <= i <= |all|
      invariant vs == FlatMap(all[..i], ProtectionCheck)
    {
      FlatMapSnoc(all, ProtectionCheck, i);
      var circuit := all[i];
      i := i + 1;
      if circuit.blockType != "dhc_circuit" {
        continue;
      }
      var circuitLabel := LabelOr(circuit, "unnamed");
      var circuitType := InferCircuitType(circuit);
      var device := FindFirstTarget(circuit.inputs, "HASPROTECTION");
      if device.None? {
        vs := vs + [Violation(Warning, MissingMessage(circuitLabel), circuit.id, MissingId)];
        continue;
      }
      var ratedCurrent := NumberOr(FieldValue(device.value.fields, "RATED_CURRENT"), Int(0));
      if circuitType == Lighting && Less(Int(10), ratedCurrent) {
        vs := vs + [Violation(Error, SizingMessage(circuitLabel, circuitType, ratedCurrent), device.value.id, SizingId)];
      } else if circuitType == Sockets && Less(Int(16), ratedCurrent) {
        vs := vs + [Violation(Error, SizingMessage(circuitLabel, circuitType, ratedCurrent), device.value.id, SizingId)];
      } else if circuitType == Dedicated && Less(ratedCurrent, Int(20)) {
        vs := vs + [Violation(Warning, SizingMessage(circuitLabel, circuitType, ratedCurrent), device.value.id, SizingId)];
      }
    }
    assert all[..i] == all;
  }

  /** Every core circuit without a protection device is reported, as a warning on the circuit. */
  lemma MissingReported(all: seq<Block>, c: Block)
    requires c in all && c.blockType == "dhc_circuit" && FirstTarget(c.inputs, "HASPROTECTION").None?
    ensures Violation(Warning, MissingMessage(LabelOr(c, "unnamed")), c.id, MissingId) in FlatMap(all, ProtectionCheck)
  {
    var i :| 0 <= i < |all| && all[i] == c;
    FlatMapMember(all, ProtectionCheck, Violation(Warning, MissingMessage(LabelOr(c, "unnamed")), c.id, MissingId));
  }

  /** Every report comes from a core circuit: a missing device on the circuit, or a sizing problem on its device. */
  lemma ReportsFromCircuits(all: seq<Block>, v: Violation)
    requires v in FlatMap(all, ProtectionCheck)
    ensures exists c :: c in all && c.blockType == "dhc_circuit" && v in ProtectionCheck(c)
    ensures v.ruleId == MissingId || v.ruleId == SizingId
  {
    FlatMapMember(all, ProtectionCheck, v);
    var i :| 0 <= i < |all| && v in ProtectionCheck(all[i]);
    assert all[i] in all;
    CheckRuleIds(all[i], v);
  }

  lemma CheckRuleIds(b: Block, v: Violation)
    requires v in ProtectionCheck(b)
    ensures b.blockType == "dhc_circuit"
    ensures v.ruleId == MissingId || v.ruleId == SizingId
  {
    var device := FirstTarget(b.inputs, "HASPROTECTION");
    if device.Some? {
      assert v in SizingCheck(LabelOr(b, "unnamed"), CircuitKindOf(b), device.value);
    }
  }
}
