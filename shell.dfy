/**
 * The shell generator: the skeleton workspace of a new SmartHome. Block ids come
 * from a counter that is reset on every call, so the skeleton depends on the
 * country alone. French homes get the NF C 14-100 meter and emergency disconnect
 * and the NF C 15-100 GTL as well, and the energy delivery feeds the meter.
 */
module ShellGenerator {
  import opened Wrappers
  import opened Text
  import opened Numbers
  import opened Blocks
  import opened GraphJson

  /** The `n`-th id handed out by the counter. */
  function ShellId(n: nat): string {
    "shell_" + NatToString(n)
  }

  /** Different counter values give different ids. */
  lemma ShellIdInjective(m: nat, n: nat)
    requires m != n
    ensures ShellId(m) != ShellId(n)
  {
    if ShellId(m) == ShellId(n) {
      assert NatToString(m) == ShellId(m)[6..];
      assert NatToString(n) == ShellId(n)[6..];
      NatToStringInjective(m, n);
    }
  }

  /** A block definition in Blockly's serialization format, filled in after it is created. */
  class ShellBlock {
    const blockType: string
    const id: string
    var fields: Properties
    /** The `inputs` object, when present: each input name with the block it holds. */
    var inputs: Option<seq<(string, ShellBlock)>>
    var x: Option<int>
    var y: Option<int>

    constructor(blockType: string, id: string)
      ensures this.blockType == blockType && this.id == id
      ensures fields == [] && inputs == None && x == None && y == None
    {
      this.blockType := blockType;
      this.id := id;
      fields := [];
      inputs := None;
      x := None;
      y := None;
    }
  }

  /** `{ blocks: { languageVersion, blocks } }`. */
  datatype ShellWorkspace = ShellWorkspace(languageVersion: int, blocks: seq<ShellBlock>)

  /** What one top block of the skeleton is: its type, the counter value of its id and its fields. */
  datatype Planned = Planned(blockType: string, serial: nat, fields: Properties)

  const TechnicalSpaceFields: Properties := [("LABEL", Str("Technical Space"))]
  const EnergyDeliveryFields: Properties :=
    [("LABEL", Str("Energy Delivery")), ("CURRENT_TYPE", Str("SinglePhase")), ("CONTRACTED_POWER_K_V_A", Num(Int(6)))]
  const MainBoardFields: Properties := [("LABEL", Str("Main Board")), ("DISTRIBUTION_BOARD_TYPE", Str("ACBoard"))]
  const MeterFields: Properties := [("LABEL", Str("Compteur Enedis"))]
  const DisconnectFields: Properties := [("LABEL", Str("Disjoncteur de branchement"))]
  const GtlFields: Properties := [("LABEL", Str("GTL"))]

  /**
   * The top blocks in the order they are placed. The ids follow creation order:
   * technical space, energy delivery, main board, then meter, disconnect and GTL.
   */
  function Plan(country: string): (r: seq<Planned>)
    ensures |r| == if country == "FR" then 6 else 3
  {
    if country == "FR" then [
      Planned("dhc_energy_delivery", 2, EnergyDeliveryFields),
      Planned("dhc_nfc14100_nf14_energy_meter", 4, MeterFields),
      Planned("dhc_nfc14100_nf14_emergency_disconnect", 5, DisconnectFields),
      Planned("dhc_distribution_board", 3, MainBoardFields),
      Planned("dhc_electrical_technical_space", 1, TechnicalSpaceFields),
      Planned("dhc_nfc15100_gtl", 6, GtlFields)
    ] else [
      Planned("dhc_energy_delivery", 2, EnergyDeliveryFields),
      Planned("dhc_distribution_board", 3, MainBoardFields),
      Planned("dhc_electrical_technical_space", 1, TechnicalSpaceFields)
    ]
  }

  /** The counter values of a plan are exactly 1 to its length, each used once. */
  lemma PlanSerials(country: string)
    ensures var p := Plan(country);
      && (forall i :: 0 <= i < |p| ==> 1 <= p[i].serial <= |p|)
      && (forall i, j :: 0 <= i < j < |p| ==> p[i].serial != p[j].serial)
  {
  }

  /** Every top block of a plan has its own id. */
  lemma PlanIdsDistinct(country: string, i: nat, j: nat)
    requires i < j < |Plan(country)|
    ensures ShellId(Plan(country)[i].serial) != ShellId(Plan(country)[j].serial)
  {
    PlanSerials(country);
    ShellIdInjective(Plan(country)[i].serial, Plan(country)[j].serial);
  }

  /** The block has the type, the id and the fields the plan gives it. */
  predicate AsPlanned(b: ShellBlock, p: Planned)
    reads b
  {
    b.blockType == p.blockType && b.id == ShellId(p.serial) && b.fields == p.fields
  }

  /** The module's state: the `idCounter` that `nextId` increments. */
  class Generator {
    var idCounter: nat

    constructor()
      ensures idCounter == 0
    {
      idCounter := 0;
    }

    /** `nextId`: increments the counter and names the new value. */
    method NextId() returns (id: string)
      modifies this
      ensures idCounter == old(idCounter) + 1
      ensures id == ShellId(idCounter)
    {
      idCounter := idCounter + 1;
      id := ShellId(idCounter);
    }

    /** `makeBlock`: a fresh block with the next id, the given fields and, only when there are any, the extra inputs. */
    method MakeBlock(blockType: string, fields: Properties, extraInputs: seq<(string, ShellBlock)>) returns (b: ShellBlock)
      requires DistinctKeys(fields)
      modifies this
      ensures fresh(b)
      ensures idCounter == old(idCounter) + 1
      ensures b.blockType == blockType && b.id == ShellId(idCounter)
      ensures b.fields == fields
      ensures b.inputs == if extraInputs == [] then None else Some(extraInputs)
      ensures b.x == None && b.y == None
    {
      var id := NextId();
      b := new ShellBlock(blockType, id);
      SetFields(b, fields);
      if |extraInputs| > 0 {
        var ins := CopyInputs(extraInputs);
        b.inputs := Some(ins);
      }
    }

    /** The `for (const [k, v] of Object.entries(fields)) block.fields[k] = v` loop on a block with no fields yet. */
    static method SetFields(b: ShellBlock, fields: Properties)
      requires DistinctKeys(fields) && b.fields == []
      modifies b
      ensures b.fields == fields
      ensures b.inputs == old(b.inputs) && b.x == old(b.x) && b.y == old(b.y)
    {
      var j := 0;
      while j < |fields|
        invariant 0 <= j <= |fields|
        invariant b.fields == fields[..j]
        invariant b.inputs == old(b.inputs) && b.x == old(b.x) && b.y == old(b.y)
      {
        var (key, value) := fields[j];
        assert Assign(b.fields, key, value) == fields[..j + 1] by {
          assert fields[..j + 1] == fields[..j] + [(key, value)];
          assert forall i :: 0 <= i < |b.fields| ==> b.fields[i].0 != key;
          AssignNew(b.fields, key, value);
        }
        b.fields := Assign(b.fields, key, value);
        j := j + 1;
      }
      assert fields[..j] == fields;
    }

    /** The copy of the extra inputs into the block's `inputs` object, in order. */
    static method CopyInputs(extraInputs: seq<(string, ShellBlock)>) returns (ins: seq<(string, ShellBlock)>)
      ensures ins == extraInputs
    {
      ins := [];
      var k := 0;
      while k < |extraInputs|
        invariant 0 <= k <= |extraInputs|
        invariant ins == extraInputs[..k]
      {
        ins := ins + [extraInputs[k]];
        assert extraInputs[..k + 1] == extraInputs[..k] + [extraInputs[k]];
        k := k + 1;
      }
      assert extraInputs[..k] == extraInputs;
    }

    /** The FR chain: the three extra blocks, the energy delivery's `FEEDS`, and the six top blocks in order. */
    method FrenchTopBlocks(technicalSpace: ShellBlock, energyDelivery: ShellBlock, mainBoard: ShellBlock)
      returns (topBlocks: seq<ShellBlock>)
      requires energyDelivery.inputs == None
      modifies this, energyDelivery
      ensures idCounter == old(idCounter) + 3
      ensures |topBlocks| == 6
      ensures topBlocks[0] == energyDelivery && topBlocks[3] == mainBoard && topBlocks[4] == technicalSpace
      ensures fresh(topBlocks[1]) && fresh(topBlocks[2]) && fresh(topBlocks[5])
      ensures topBlocks[1].blockType == "dhc_nfc14100_nf14_energy_meter" && topBlocks[1].id == ShellId(old(idCounter) + 1)
      ensures topBlocks[2].blockType == "dhc_nfc14100_nf14_emergency_disconnect" && topBlocks[2].id == ShellId(old(idCounter) + 2)
      ensures topBlocks[5].blockType == "dhc_nfc15100_gtl" && topBlocks[5].id == ShellId(old(idCounter) + 3)
      ensures topBlocks[1].fields == MeterFields && topBlocks[2].fields == DisconnectFields && topBlocks[5].fields == GtlFields
      ensures energyDelivery.inputs == Some([("FEEDS", topBlocks[1])])
      ensures topBlocks[1].inputs == Some([]) && topBlocks[2].inputs == None && topBlocks[5].inputs == None
      ensures forall k :: k in {1, 2, 5} ==> topBlocks[k].x == None && topBlocks[k].y == None
      ensures energyDelivery.fields == old(energyDelivery.fields)
      ensures energyDelivery.x == old(energyDelivery.x) && energyDelivery.y == old(energyDelivery.y)
    {
      var nf14Meter := MakeBlock("dhc_nfc14100_nf14_energy_meter", MeterFields, []);
      var nf14Disconnect := MakeBlock("dhc_nfc14100_nf14_emergency_disconnect", DisconnectFields, []);
      var gtl := MakeBlock("dhc_nfc15100_gtl", GtlFields, []);
      var feeds := energyDelivery.inputs.GetOr([]);
      assert feeds + [("FEEDS", nf14Meter)] == [("FEEDS", nf14Meter)];
      energyDelivery.inputs := Some(feeds + [("FEEDS", nf14Meter)]);
      nf14Meter.inputs := Some(nf14Meter.inputs.GetOr([]));
      topBlocks := [energyDelivery, nf14Meter, nf14Disconnect, mainBoard, technicalSpace, gtl];
    }

    /** The loop that places top block `i` at x = 50, y = 50 + 200·i. */
    method Position(topBlocks: seq<ShellBlock>)
      requires forall i, j :: 0 <= i < j < |topBlocks| ==> topBlocks[i] != topBlocks[j]
      modifies set b | b in topBlocks
      ensures forall i :: 0 <= i < |topBlocks| ==> topBlocks[i].x == Some(50) && topBlocks[i].y == Some(50 + 200 * i)
      ensures forall b :: b in topBlocks ==> b.fields == old(b.fields) && b.inputs == old(b.inputs)
    {
      var y := 50;
      var i := 0;
      while i < |topBlocks|
        invariant 0 <= i <= |topBlocks|
        invariant y == 50 + 200 * i
        invariant forall k :: 0 <= k < i ==> topBlocks[k].x == Some(50) && topBlocks[k].y == Some(50 + 200 * k)
        invariant forall b :: b in topBlocks ==> b.fields == old(b.fields) && b.inputs == old(b.inputs)
      {
        var block := topBlocks[i];
        block.x := Some(50);
        block.y := Some(y);
        y := y + 200;
        i := i + 1;
      }
    }

    /**
     * `generateShellWorkspace`: the counter is reset, so the skeleton follows the
     * plan for the country whatever was generated before; the home id is not used.
     */
    method GenerateShellWorkspace(smartHomeId: string, country: string) returns (ws: ShellWorkspace)
      modifies this
      ensures ws.languageVersion == 0
      ensures idCounter == |Plan(country)|
      ensures |ws.blocks| == |Plan(country)|
      ensures forall i :: 0 <= i < |ws.blocks| ==>
        && fresh(ws.blocks[i])
        && ws.blocks[i].blockType == Plan(country)[i].blockType
        && ws.blocks[i].id == ShellId(Plan(country)[i].serial)
        && ws.blocks[i].fields == Plan(country)[i].fields
        && ws.blocks[i].x == Some(50) && ws.blocks[i].y == Some(50 + 200 * i)
      ensures forall i, j :: 0 <= i < j < |ws.blocks| ==> ws.blocks[i] != ws.blocks[j]
      ensures country == "FR" ==> ws.blocks[0].inputs == Some([("FEEDS", ws.blocks[1])]) && ws.blocks[1].inputs == Some([])
      ensures forall i :: 0 <= i < |ws.blocks| && (country != "FR" || i >= 2) ==> ws.blocks[i].inputs == None
    {
      idCounter := 0;
      var topBlocks := TopBlocks(country);
      Position(topBlocks);
      ws := ShellWorkspace(0, topBlocks);
    }

    /** The top blocks before they are placed: created, typed, named and filled as the plan says. */
    method TopBlocks(country: string) returns (topBlocks: seq<ShellBlock>)
      requires idCounter == 0
      modifies this
      ensures idCounter == |Plan(country)| && |topBlocks| == |Plan(country)|
      ensures forall i :: 0 <= i < |topBlocks| ==> fresh(topBlocks[i]) && AsPlanned(topBlocks[i], Plan(country)[i])
      ensures forall i, j :: 0 <= i < j < |topBlocks| ==> topBlocks[i] != topBlocks[j]
      ensures country == "FR" ==> topBlocks[0].inputs == Some([("FEEDS", topBlocks[1])]) && topBlocks[1].inputs == Some([])
      ensures forall i :: 0 <= i < |topBlocks| && (country != "FR" || i >= 2) ==> topBlocks[i].inputs == None
    {
      var technicalSpace := MakeBlock("dhc_electrical_technical_space", TechnicalSpaceFields, []);
      var energyDelivery := MakeBlock("dhc_energy_delivery", EnergyDeliveryFields, []);
      var mainBoard := MakeBlock("dhc_distribution_board", MainBoardFields, []);
      if country == "FR" {
        topBlocks := FrenchTopBlocks(technicalSpace, energyDelivery, mainBoard);
      } else {
        topBlocks := [energyDelivery, mainBoard, technicalSpace];
      }
    }
  }
}
