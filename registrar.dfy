/**
 * The block registrar: block definitions generated from the ontology are added to
 * Blockly's global block registry once per session. A guard flag makes repeated
 * calls harmless, and a type that is already registered is never redefined.
 */
module BlockRegistrar {
  import opened Wrappers

  /** One block definition: its `type` and the rest of the JSON handed to `jsonInit`. */
  datatype BlockDef = BlockDef(blockType: string, json: string)

  /** The types named by `defs`. */
  function Types(defs: seq<BlockDef>): (r: set<string>)
    ensures forall d :: d in defs ==> d.blockType in r
  {
    if defs == [] then {}
    else
      var init := defs[..|defs| - 1];
      assert defs == init + [defs[|defs| - 1]];
      Types(init) + {defs[|defs| - 1].blockType}
  }

  /** A type is named by `defs` exactly when some definition in it has that type. */
  lemma {:induction false} TypesMember(defs: seq<BlockDef>, t: string)
    ensures t in Types(defs) <==> exists j :: 0 <= j < |defs| && defs[j].blockType == t
  {
    if defs != [] {
      var init := defs[..|defs| - 1];
      TypesMember(init, t);
      if exists j :: 0 <= j < |init| && init[j].blockType == t {
        var j :| 0 <= j < |init| && init[j].blockType == t;
        assert defs[j] == init[j];
      }
      if exists j :: 0 <= j < |defs| && defs[j].blockType == t {
        var j :| 0 <= j < |defs| && defs[j].blockType == t;
        if j < |init| {
          assert init[j] == defs[j];
        }
      }
    }
  }

  /** The registry after adding `defs` in order, skipping every type already present. */
  function Registered(registry: map<string, BlockDef>, defs: seq<BlockDef>): (r: map<string, BlockDef>)
    ensures r.Keys == registry.Keys + Types(defs)
    ensures forall t :: t in registry ==> r[t] == registry[t]
    ensures forall t :: t in r && t !in registry ==> r[t] in defs && r[t].blockType == t
  {
    if defs == [] then registry
    else
      var init := defs[..|defs| - 1];
      var before := Registered(registry, init);
      var def := defs[|defs| - 1];
      assert forall d :: d in init ==> d in defs;
      if def.blockType in before then before else before[def.blockType := def]
  }

  lemma RegisteredSnoc(registry: map<string, BlockDef>, defs: seq<BlockDef>, i: nat)
    requires i < |defs|
    ensures Registered(registry, defs[..i + 1])
      == var before := Registered(registry, defs[..i]);
         if defs[i].blockType in before then before else before[defs[i].blockType := defs[i]]
  {
    assert defs[..i + 1][..i] == defs[..i];
  }

  /**
   * Within one call the first definition of a type wins: a type that was not
   * registered before maps to its first occurrence in `defs`.
   */
  lemma {:induction false} FirstDefinitionWins(registry: map<string, BlockDef>, defs: seq<BlockDef>, i: nat)
    requires i < |defs| && defs[i].blockType !in registry
    requires forall j :: 0 <= j < i ==> defs[j].blockType != defs[i].blockType
    ensures Registered(registry, defs)[defs[i].blockType] == defs[i]
    decreases |defs|
  {
    var init := defs[..|defs| - 1];
    var t := defs[i].blockType;
    if i == |defs| - 1 {
      assert t !in Types(init) by {
        TypesMember(init, t);
      }
    } else {
      assert init[i] == defs[i];
      FirstDefinitionWins(registry, init, i);
    }
  }

  /** Registering the same definitions a second time changes nothing. */
  lemma {:induction false} RegisteredIdempotent(registry: map<string, BlockDef>, defs: seq<BlockDef>)
    ensures Registered(Registered(registry, defs), defs) == Registered(registry, defs)
  {
    var after := Registered(registry, defs);
    AlreadyRegistered(after, defs);
  }

  /** Definitions whose types are all present already leave the registry as it is. */
  lemma {:induction false} AlreadyRegistered(registry: map<string, BlockDef>, defs: seq<BlockDef>)
    requires forall d :: d in defs ==> d.blockType in registry
    ensures Registered(registry, defs) == registry
  {
    if defs != [] {
      var init := defs[..|defs| - 1];
      assert forall d :: d in init ==> d in defs;
      AlreadyRegistered(registry, init);
      assert defs[|defs| - 1] in defs;
    }
  }

  /** The module state of `blockRegistrar.js` together with Blockly's global `Blocks` table. */
  class Registrar {
    var registered: bool
    var registry: map<string, BlockDef>

    /** A fresh session: nothing registered by this module yet, Blockly's own blocks in place. */
    constructor(builtIns: map<string, BlockDef>)
      ensures !registered && registry == builtIns
    {
      registered := false;
      registry := builtIns;
    }

    /**
     * `registerBlocks`: once registered, nothing happens; without an array of
     * definitions, nothing happens and the flag stays down; otherwise every new
     * type is added and the flag goes up, even for an empty array.
     */
    method RegisterBlocks(blockDefs: Option<seq<BlockDef>>)
      modifies this
      ensures old(registered) ==> registered && registry == old(registry)
      ensures !old(registered) && blockDefs.None? ==> !registered && registry == old(registry)
      ensures !old(registered) && blockDefs.Some? ==>
        registered && registry == Registered(old(registry), blockDefs.value)
    {
      if registered {
        return;
      }
      if blockDefs.None? {
        return;
      }
      var defs := blockDefs.value;
      for i := 0 to |defs|
        invariant !registered
        invariant registry == Registered(old(registry), defs[..i])
      {
        RegisteredSnoc(old(registry), defs, i);
        var def := defs[i];
        if def.blockType in registry {
          continue;
        }
        registry := registry[def.blockType := def];
      }
      assert defs[..|defs|] == defs;
      registered := true;
    }

    /** `resetBlockRegistration`: lowers the flag and keeps every registered block. */
    method Reset()
      modifies this
      ensures !registered && registry == old(registry)
    {
      registered := false;
    }
  }
}
