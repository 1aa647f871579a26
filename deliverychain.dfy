/**
 * NF C 14-100, delivery chain: as soon as one NF C 14-100 module block is on the
 * canvas, the chain from the grid to the board must be complete — an energy
 * delivery, the NF14 energy meter, the NF14 emergency disconnect and a
 * distribution board. Each missing link is an error on the first NF C 14-100 block.
 */
module DeliveryChainRule {
  import opened Text
  import opened Blocks
  import opened Violations

  const RuleId: string := "nfc14100-delivery-chain"

  predicate IsNfc14100(b: Block) {
    StartsWith(b.blockType, "dhc_nfc14100_")
  }

  /** `allBlocks.filter(b => b.type.startsWith("dhc_nfc14100_"))`. */
  function Nfc14100Blocks(all: seq<Block>): (r: seq<Block>)
    ensures forall b :: b in r <==> b in all && IsNfc14100(b)
    ensures |r| <= |all|
  {
    if all == [] then []
    else (if IsNfc14100(all[0]) then [all[0]] else []) + Nfc14100Blocks(all[1..])
  }

  /** The filter keeps the order: its head is the first NF C 14-100 block of the walk. */
  lemma {:induction false} Nfc14100First(all: seq<Block>)
    requires Nfc14100Blocks(all) != []
    ensures exists i ::
      && 0 <= i < |all| && all[i] == Nfc14100Blocks(all)[0]
      && forall j :: 0 <= j < i ==> !IsNfc14100(all[j])
  {
    if !IsNfc14100(all[0]) {
      Nfc14100First(all[1..]);
      var i :| 0 <= i < |all[1..]| && all[1..][i] == Nfc14100Blocks(all[1..])[0]
        && forall j :: 0 <= j < i ==> !IsNfc14100(all[1..][j]);
      assert all[i + 1] == Nfc14100Blocks(all)[0];
      forall j | 0 <= j < i + 1
        ensures !IsNfc14100(all[j])
      {
        if j > 0 {
          assert all[j] == all[1..][j - 1];
        }
      }
    } else {
      assert all[0] == Nfc14100Blocks(all)[0];
    }
  }

  /** `allBlocks.some(b => b.type === t)`. */
  predicate HasType(all: seq<Block>, t: string) {
    exists b :: b in all && b.blockType == t
  }

  /** One link of the chain: the block type that must be present, and how the message names it. */
  datatype Requirement = Requirement(blockType: string, what: string)

  /** The links, in the order they are checked. */
  const Requirements: seq<Requirement> := [
    Requirement("dhc_energy_delivery", "Energy Delivery block"),
    Requirement("dhc_nfc14100_nf14_energy_meter", "NF14 Energy Meter"),
    Requirement("dhc_nfc14100_nf14_emergency_disconnect", "NF14 Emergency Disconnect"),
    Requirement("dhc_distribution_board", "Distribution Board")
  ]

  function MissingViolation(req: Requirement, blockId: string): Violation {
    Violation(Error, "NFC 14-100 delivery chain incomplete: " + req.what + " is required.", blockId, RuleId)
  }

  /** One error per requirement missing from `all`, in requirement order. */
  function RequirementChecks(all: seq<Block>, reqs: seq<Requirement>, blockId: string): (r: seq<Violation>)
    ensures |r| <= |reqs|
  {
    if reqs == [] then []
    else
      (if HasType(all, reqs[0].blockType) then [] else [MissingViolation(reqs[0], blockId)])
        + RequirementChecks(all, reqs[1..], blockId)
  }

  /** `validateDeliveryChain` on the list of all blocks. */
  function DeliveryViolations(all: seq<Block>): (r: seq<Violation>)
    ensures Nfc14100Blocks(all) == [] ==> r == []
  {
    var nfc := Nfc14100Blocks(all);
    if nfc == [] then [] else RequirementChecks(all, Requirements, nfc[0].id)
  }

  /** A violation is reported exactly for a requirement that no block meets. */
  lemma {:induction false} RequirementChecksMember(all: seq<Block>, reqs: seq<Requirement>, blockId: string, v: Violation)
    ensures v in RequirementChecks(all, reqs, blockId) <==>
      exists k :: 0 <= k < |reqs| && !HasType(all, reqs[k].blockType) && v == MissingViolation(reqs[k], blockId)
  {
    if reqs != [] {
      RequirementChecksMember(all, reqs[1..], blockId, v);
      if exists k :: 0 <= k < |reqs| && !HasType(all, reqs[k].blockType) && v == MissingViolation(reqs[k], blockId) {
        var k :| 0 <= k < |reqs| && !HasType(all, reqs[k].blockType) && v == MissingViolation(reqs[k], blockId);
        if k > 0 {
          assert reqs[1..][k - 1] == reqs[k];
        }
      }
      if v in RequirementChecks(all, reqs[1..], blockId) {
        var k :| 0 <= k < |reqs[1..]| && !HasType(all, reqs[1..][k].blockType) && v == MissingViolation(reqs[1..][k], blockId);
        assert reqs[k + 1] == reqs[1..][k];
      }
    }
  }

  /**
   * The rule is silent exactly when there is no NF C 14-100 block or the whole
   * chain is present; otherwise every report is an error on the first NF C 14-100
   * block naming a missing link, and every missing link is reported.
   */
  lemma DeliveryViolationsMeaning(all: seq<Block>)
    ensures DeliveryViolations(all) == [] <==>
      (forall b :: b in all ==> !IsNfc14100(b))
      || (forall k :: 0 <= k < |Requirements| ==> HasType(all, Requirements[k].blockType))
    ensures Nfc14100Blocks(all) != [] ==>
      forall v :: v in DeliveryViolations(all) <==>
        exists k :: 0 <= k < |Requirements| && !HasType(all, Requirements[k].blockType)
          && v == MissingViolation(Requirements[k], Nfc14100Blocks(all)[0].id)
  {
    var nfc := Nfc14100Blocks(all);
    if nfc != [] {
      forall v
        ensures v in DeliveryViolations(all) <==>
          exists k :: 0 <= k < |Requirements| && !HasType(all, Requirements[k].blockType)
            && v == MissingViolation(Requirements[k], nfc[0].id)
      {
        RequirementChecksMember(all, Requirements, nfc[0].id, v);
      }
      if exists k :: 0 <= k < |Requirements| && !HasType(all, Requirements[k].blockType) {
        var k :| 0 <= k < |Requirements| && !HasType(all, Requirements[k].blockType);
        assert MissingViolation(Requirements[k], nfc[0].id) in DeliveryViolations(all);
      }
      if DeliveryViolations(all) != [] {
        assert DeliveryViolations(all)[0] in DeliveryViolations(all);
      }
      assert nfc[0] in nfc;
    }
  }

  /** One `if (!has…) violations.push(…)` step: the pushed prefix followed by the checks still to come. */
  lemma CheckStep(all: seq<Block>, reqs: seq<Requirement>, k: nat, blockId: string, done: seq<Violation>, after: seq<Violation>)
    requires k < |reqs|
    requires after == if HasType(all, reqs[k].blockType) then done else done + [MissingViolation(reqs[k], blockId)]
    ensures done + RequirementChecks(all, reqs[k..], blockId) == after + RequirementChecks(all, reqs[k + 1..], blockId)
    ensures k + 1 == |reqs| ==> done + RequirementChecks(all, reqs[k..], blockId) == after
  {
    assert reqs[k..][1..] == reqs[k + 1..];
    assert k + 1 == |reqs| ==> after + RequirementChecks(all, reqs[k + 1..], blockId) == after;
    if !HasType(all, reqs[k].blockType) {
      AppendAssoc(done, [MissingViolation(reqs[k], blockId)], RequirementChecks(all, reqs[k + 1..], blockId));
    }
  }

  /** `validateDeliveryChain`: nothing without an NF C 14-100 block, else the chain check on the first one. */
  method ValidateDeliveryChain(ws: Workspace) returns (vs: seq<Violation>)
    ensures vs == DeliveryViolations(AllBlocks(ws))
  {
    vs := [];
    var all := AllBlocks(ws);
    var nfc14100Blocks := Nfc14100Blocks(all);
    if |nfc14100Blocks| == 0 {
      return;
    }
    vs := CheckChain(all, nfc14100Blocks[0].id);
  }

  /** The block types of the four links, in order. */
  lemma RequirementTypes()
    ensures |Requirements| == 4
    ensures Requirements[0].blockType == "dhc_energy_delivery"
    ensures Requirements[1].blockType == "dhc_nfc14100_nf14_energy_meter"
    ensures Requirements[2].blockType == "dhc_nfc14100_nf14_emergency_disconnect"
    ensures Requirements[3].blockType == "dhc_distribution_board"
  {
  }

  /** The four `some` tests and the pushes, each missing link reported on `id`. */
  method CheckChain(all: seq<Block>, id: string) returns (vs: seq<Violation>)
    ensures vs == RequirementChecks(all, Requirements, id)
  {
    vs := [];
    var hasEnergyDelivery := HasType(all, "dhc_energy_delivery");
    var hasNF14Meter := HasType(all, "dhc_nfc14100_nf14_energy_meter");
    var hasNF14Disconnect := HasType(all, "dhc_nfc14100_nf14_emergency_disconnect");
    var hasDistributionBoard := HasType(all, "dhc_distribution_board");
    var r := Requirements;
    RequirementTypes();
    assert r[0..] == r && vs + RequirementChecks(all, r, id) == RequirementChecks(all, r, id);
    ghost var v0 := vs;
    if !hasEnergyDelivery {
      vs := vs + [MissingViolation(r[0], id)];
    }
    CheckStep(all, r, 0, id, v0, vs);
    ghost var v1 := vs;
    if !hasNF14Meter {
      vs := vs + [MissingViolation(r[1], id)];
    }
    CheckStep(all, r, 1, id, v1, vs);
    ghost var v2 := vs;
    if !hasNF14Disconnect {
      vs := vs + [MissingViolation(r[2], id)];
    }
    CheckStep(all, r, 2, id, v2, vs);
    ghost var v3 := vs;
    if !hasDistributionBoard {
      vs := vs + [MissingViolation(r[3], id)];
    }
    CheckStep(all, r, 3, id, v3, vs);
  }
}
