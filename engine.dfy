/**
 * The NF C 15-100 validation engine: the four rules run in a fixed order over the
 * workspace, and their violations are concatenated in that order. Without a
 * workspace there is nothing to report.
 */
module Engine {
  import opened Wrappers
  import opened Text
  import opened Blocks
  import opened Violations
  import MaxPointsRule
  import ProtectionRule
  import WireSectionRule
  import DeliveryChainRule

  datatype Rule = MaxPoints | ProtectionSizing | WireCrossSection | DeliveryChain

  /** `RULES`, in the order they run. */
  const Rules: seq<Rule> := [MaxPoints, ProtectionSizing, WireCrossSection, DeliveryChain]

  /** What one rule reports on a workspace. */
  function RuleViolations(rule: Rule, ws: Workspace): seq<Violation> {
    match rule
    case MaxPoints => FlatMap(AllBlocks(ws), MaxPointsRule.PointsCheck)
    case ProtectionSizing => FlatMap(AllBlocks(ws), ProtectionRule.ProtectionCheck)
    case WireCrossSection => FlatMap(AllBlocks(ws), WireSectionRule.WireCircuitCheck)
    case DeliveryChain => DeliveryChainRule.DeliveryViolations(AllBlocks(ws))
  }

  /** What running a rule gives: its violations, or `None` when it threw. */
  type Outcome = Option<seq<Violation>>

  /** Every rule of the model is total, so running it always succeeds. */
  function RuleOutcome(rule: Rule, ws: Workspace): Outcome {
    Some(RuleViolations(rule, ws))
  }

  function Outcomes(rules: seq<Rule>, ws: Workspace): (r: seq<Outcome>)
    ensures |r| == |rules|
    ensures forall i :: 0 <= i < |rules| ==> r[i] == RuleOutcome(rules[i], ws)
  {
    seq(|rules|, i requires 0 <= i < |rules| => RuleOutcome(rules[i], ws))
  }

  /** The results of the rules that succeeded, one after another; a failed rule adds nothing. */
  function Collected(outcomes: seq<Outcome>): seq<Violation> {
    if outcomes == [] then []
    else
      var last := outcomes[|outcomes| - 1];
      Collected(outcomes[..|outcomes| - 1]) + (if last.Some? then last.value else [])
  }

  /** `validateWorkspace`: nothing without a workspace, else what the rules give, in order. */
  function Validation(ws: Option<Workspace>): seq<Violation> {
    if ws.None? then [] else Collected(Outcomes(Rules, ws.value))
  }

  /** One `rule(workspace)` inside the `try`. */
  method RunRule(rule: Rule, ws: Workspace) returns (outcome: Outcome)
    ensures outcome == RuleOutcome(rule, ws)
  {
    var results: seq<Violation>;
    match rule {
      case MaxPoints => results := MaxPointsRule.ValidateMaxPointsPerCircuit(ws);
      case ProtectionSizing => results := ProtectionRule.ValidateProtectionDeviceSizing(ws);
      case WireCrossSection => results := WireSectionRule.ValidateWireCrossSection(ws);
      case DeliveryChain => results := DeliveryChainRule.ValidateDeliveryChain(ws);
    }
    outcome := Some(results);
  }

  lemma CollectedSnoc(outcomes: seq<Outcome>, i: nat)
    requires i < |outcomes|
    ensures Collected(outcomes[..i + 1]) == Collected(outcomes[..i])
      + (if outcomes[i].Some? then outcomes[i].value else [])
  {
    assert outcomes[..i + 1][..i] == outcomes[..i];
  }

  /** `validateWorkspace`: the loop over `RULES`; a rule that throws is skipped. */
  method ValidateWorkspace(ws: Option<Workspace>) returns (violations: seq<Violation>)
    ensures violations == Validation(ws)
  {
    if ws.None? {
      return [];
    }
    violations := [];
    ghost var outcomes := Outcomes(Rules, ws.value);
    var i := 0;
    while i < |Rules|
      invariant 0 <= i <= |Rules|
      invariant violations == Collected(outcomes[..i])
    {
      CollectedSnoc(outcomes, i);
      var outcome := RunRule(Rules[i], ws.value);
      match outcome {
        case Some(results) => violations := violations + results;
        case None =>
      }
      i := i + 1;
    }
    assert outcomes[..i] == outcomes;
  }

  lemma {:induction false} CollectedAppend(a: seq<Outcome>, b: seq<Outcome>)
    ensures Collected(a + b) == Collected(a) + Collected(b)
    decreases |b|
  {
    if b == [] {
      assert a + b == a;
    } else {
      var init, last := b[..|b| - 1], b[|b| - 1];
      assert (a + b)[..|a + b| - 1] == a + init;
      assert (a + b)[|a + b| - 1] == last;
      CollectedAppend(a, init);
      AppendAssoc(Collected(a), Collected(init), if last.Some? then last.value else []);
    }
  }

  /**
   * Rules are isolated: the results around a rule are the same whether it
   * succeeds or throws, and a throwing rule only loses its own results.
   */
  lemma FailureIsolated(outcomes: seq<Outcome>, k: nat)
    requires k < |outcomes|
    ensures Collected(outcomes[k := None]) == Collected(outcomes[..k]) + Collected(outcomes[k + 1..])
    ensures outcomes[k].Some? ==>
      Collected(outcomes) == Collected(outcomes[..k]) + outcomes[k].value + Collected(outcomes[k + 1..])
  {
    var failed := outcomes[k := None];
    assert failed == outcomes[..k] + [None] + outcomes[k + 1..];
    assert outcomes == outcomes[..k] + [outcomes[k]] + outcomes[k + 1..];
    CollectedAppend(outcomes[..k] + [None], outcomes[k + 1..]);
    CollectedAppend(outcomes[..k], [None]);
    CollectedAppend(outcomes[..k] + [outcomes[k]], outcomes[k + 1..]);
    CollectedAppend(outcomes[..k], [outcomes[k]]);
    assert Collected([None]) == [];
    assert Collected([outcomes[k]]) == (if outcomes[k].Some? then outcomes[k].value else []);
  }

  /** The rule ids the engine can report. */
  const KnownRuleIds: set<string> := {
    MaxPointsRule.RuleId, ProtectionRule.MissingId, ProtectionRule.SizingId,
    WireSectionRule.RuleId, DeliveryChainRule.RuleId
  }

  /** Every report of one rule carries that rule's id. */
  lemma RuleViolationsIds(rule: Rule, ws: Workspace, v: Violation)
    requires v in RuleViolations(rule, ws)
    ensures rule == MaxPoints ==> v.ruleId == MaxPointsRule.RuleId
    ensures rule == ProtectionSizing ==> v.ruleId in {ProtectionRule.MissingId, ProtectionRule.SizingId}
    ensures rule == WireCrossSection ==> v.ruleId == WireSectionRule.RuleId
    ensures rule == DeliveryChain ==> v.ruleId == DeliveryChainRule.RuleId
  {
    var all := AllBlocks(ws);
    match rule
    case MaxPoints => MaxPointsRule.OnlyOverloadReported(all, v);
    case ProtectionSizing => ProtectionRule.ReportsFromCircuits(all, v);
    case WireCrossSection => WireSectionRule.ReportsFromSegments(all, v);
    case DeliveryChain =>
      DeliveryChainRule.DeliveryViolationsMeaning(all);
  }

  /** The engine reports exactly the four rules' violations, in rule order. */
  lemma ValidationInOrder(ws: Workspace)
    ensures Validation(Some(ws)) == RuleViolations(MaxPoints, ws) + RuleViolations(ProtectionSizing, ws)
      + RuleViolations(WireCrossSection, ws) + RuleViolations(DeliveryChain, ws)
  {
    var outs := Outcomes(Rules, ws);
    assert outs[0] == Some(RuleViolations(MaxPoints, ws));
    assert outs[1] == Some(RuleViolations(ProtectionSizing, ws));
    assert outs[2] == Some(RuleViolations(WireCrossSection, ws));
    assert outs[3] == Some(RuleViolations(DeliveryChain, ws));
    CollectedFour(outs);
  }

  /** Four outcomes that all succeeded are collected in order. */
  lemma CollectedFour(outs: seq<Outcome>)
    requires |outs| == 4 && outs[0].Some? && outs[1].Some? && outs[2].Some? && outs[3].Some?
    ensures Collected(outs) == outs[0].value + outs[1].value + outs[2].value + outs[3].value
  {
    CollectedSnoc(outs, 0);
    CollectedSnoc(outs, 1);
    CollectedSnoc(outs, 2);
    CollectedSnoc(outs, 3);
    assert outs[..0] == [] && outs[..4] == outs;
    assert [] + outs[0].value == outs[0].value;
  }

  /** A violation is collected exactly when one of the successful outcomes holds it. */
  lemma {:induction false} CollectedMember(outcomes: seq<Outcome>, v: Violation)
    ensures v in Collected(outcomes) <==> exists k :: 0 <= k < |outcomes| && outcomes[k].Some? && v in outcomes[k].value
  {
    if outcomes != [] {
      var init := outcomes[..|outcomes| - 1];
      CollectedMember(init, v);
      if v in Collected(init) {
        var k :| 0 <= k < |init| && init[k].Some? && v in init[k].value;
        assert outcomes[k] == init[k];
      }
      if exists k :: 0 <= k < |outcomes| && outcomes[k].Some? && v in outcomes[k].value {
        var k :| 0 <= k < |outcomes| && outcomes[k].Some? && v in outcomes[k].value;
        if k < |init| {
          assert init[k] == outcomes[k];
        }
      }
    }
  }

  /** Every report of the engine carries one of the known rule ids. */
  lemma ValidationIds(ws: Option<Workspace>, v: Violation)
    requires v in Validation(ws)
    ensures v.ruleId in KnownRuleIds
  {
    var outs := Outcomes(Rules, ws.value);
    CollectedMember(outs, v);
    var k :| 0 <= k < |outs| && outs[k].Some? && v in outs[k].value;
    RuleViolationsIds(Rules[k], ws.value, v);
  }
}
