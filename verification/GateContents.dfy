/** Which gates a plan holds: those a changed path calls for and what they depend on, in an order that respects it. */
module GateContents {
  import opened Common
  import opened GateSearch
  import opened GateConfig
  import opened GatePlan
  import Glob

  /** The gate names no patterns, or one of its patterns matches a changed path. */
  ghost predicate CalledFor(gate: Gate, changed: seq<string>)
  {
    gate.whenPaths == [] || exists pattern, path :: pattern in gate.whenPaths && path in changed && Glob.GlobMatch(pattern, path, false)
  }

  /** Each gate of the walk depends on the next one. */
  ghost predicate Leads(gates: seq<Gate>, walk: seq<nat>)
  {
    && walk != [] && (forall k :: 0 <= k < |walk| ==> walk[k] < |gates|)
    && forall k :: 0 <= k < |walk| - 1 ==> gates[walk[k + 1]].id in gates[walk[k]].dependsOn
  }

  /** A gate that is called for depends on this one, however indirectly, or is this one. */
  ghost predicate Needed(gates: seq<Gate>, changed: seq<string>, i: nat)
  {
    exists walk :: Leads(gates, walk) && CalledFor(gates[walk[0]], changed) && walk[|walk| - 1] == i
  }

  lemma CalledForIsMatched(gate: Gate, changed: seq<string>)
    ensures Matched(gate, changed) <==> CalledFor(gate, changed)
  {
    if pattern, path :| pattern in gate.whenPaths && path in changed && Glob.GlobMatch(pattern, path, false) {
      var i :| 0 <= i < |gate.whenPaths| && gate.whenPaths[i] == pattern;
      var j :| 0 <= j < |changed| && changed[j] == path;
    }
  }

  /** In a closed set that holds the matched gates lies everything needed. */
  lemma {:induction false} WalkStaysIn(gates: seq<Gate>, ids: set<string>, walk: seq<nat>)
    requires Unrepeated(gates) && DependencyClosed(GraphOf(ByID(gates)), ids) && Leads(gates, walk) && gates[walk[0]].id in ids
    ensures gates[walk[|walk| - 1]].id in ids
    decreases |walk|
  {
    if |walk| > 1 {
      var n := |walk| - 2;
      WalkStaysIn(gates, ids, walk[..n + 1]);
      UnrepeatedByID(gates, walk[n]);
      assert gates[walk[n + 1]].id in Deps(GraphOf(ByID(gates)), gates[walk[n]].id);
    }
  }

  ghost function NeededIDs(gates: seq<Gate>, changed: seq<string>): set<string>
  {
    set i: nat | i < |gates| && Needed(gates, changed, i) :: gates[i].id
  }

  lemma NeededStep(gates: seq<Gate>, changed: seq<string>, i: nat, j: nat)
    requires i < |gates| && j < |gates| && Needed(gates, changed, i) && gates[j].id in gates[i].dependsOn
    ensures Needed(gates, changed, j)
  {
    var walk :| Leads(gates, walk) && CalledFor(gates[walk[0]], changed) && walk[|walk| - 1] == i;
    assert Leads(gates, walk + [j]);
  }

  /** What is needed is closed under dependencies and holds the matched gates. */
  lemma NeededEncloses(gates: seq<Gate>, changed: seq<string>)
    requires WellDeclared(gates)
    ensures Encloses(GraphOf(ByID(gates)), MatchedIDs(gates, changed), NeededIDs(gates, changed))
  {
    forall id | id in MatchedIDs(gates, changed) ensures id in NeededIDs(gates, changed) {
      var i :| 0 <= i < |gates| && Matched(gates[i], changed) && gates[i].id == id;
      CalledForIsMatched(gates[i], changed);
      assert Leads(gates, [i]);
    }
    forall id, d | id in NeededIDs(gates, changed) && d in Deps(GraphOf(ByID(gates)), id) ensures d in NeededIDs(gates, changed) {
      var i :| 0 <= i < |gates| && Needed(gates, changed, i) && gates[i].id == id;
      UnrepeatedByID(gates, i);
      assert DependenciesDeclared(gates[i], IDs(gates));
      var j :| 0 <= j < |gates| && gates[j].id == d;
      NeededStep(gates, changed, i, j);
    }
  }

  lemma NeededIsPlanned(gates: seq<Gate>, changed: seq<string>, ids: set<string>, i: nat)
    requires WellDeclared(gates) && LeastClosed(GraphOf(ByID(gates)), MatchedIDs(gates, changed), ids) && i < |gates|
    ensures gates[i].id in ids <==> Needed(gates, changed, i)
  {
    NeededEncloses(gates, changed);
    if walk :| Leads(gates, walk) && CalledFor(gates[walk[0]], changed) && walk[|walk| - 1] == i {
      CalledForIsMatched(gates[walk[0]], changed);
      WalkStaysIn(gates, ids, walk);
    }
    if gates[i].id in ids {
      var j :| 0 <= j < |gates| && Needed(gates, changed, j) && gates[j].id == gates[i].id;
      assert i == j;
    }
  }

  /** For a validated configuration a plan is always made; it holds exactly the needed gates, each once and after its dependencies. */
  lemma PlannedGatesExactly(gates: seq<Gate>, changed: seq<string>, selected: map<string, Gate>, plan: Result<seq<Gate>, Failure>)
    requires ConfigValid(gates) && IsOrdering(gates, changed, selected, plan)
    ensures plan.Ok?
    ensures forall gate :: gate in plan.value <==> exists i :: 0 <= i < |gates| && gates[i] == gate && Needed(gates, changed, i)
    ensures forall i, j :: 0 <= i < j < |plan.value| ==> plan.value[i].id != plan.value[j].id
    ensures forall i, d :: 0 <= i < |plan.value| && d in plan.value[i].dependsOn ==> exists j :: 0 <= j < i && plan.value[j].id == d
  {
    ValidatedPlan(gates, changed, selected, plan);
    NeededAreNamed(gates, changed, IDs(plan.value));
    PlanHoldsNeeded(gates, changed, plan.value);
  }

  lemma NeededAreNamed(gates: seq<Gate>, changed: seq<string>, ids: set<string>)
    requires WellDeclared(gates) && LeastClosed(GraphOf(ByID(gates)), MatchedIDs(gates, changed), ids)
    ensures forall i :: 0 <= i < |gates| ==> (gates[i].id in ids <==> Needed(gates, changed, i))
  {
    forall i | 0 <= i < |gates| ensures gates[i].id in ids <==> Needed(gates, changed, i) {
      NeededIsPlanned(gates, changed, ids, i);
    }
  }

  lemma PlanHoldsNeeded(gates: seq<Gate>, changed: seq<string>, plan: seq<Gate>)
    requires Unrepeated(gates) && forall g :: g in plan ==> g in gates
    requires forall i :: 0 <= i < |gates| ==> (gates[i].id in IDs(plan) <==> Needed(gates, changed, i))
    ensures forall gate :: gate in plan <==> exists i :: 0 <= i < |gates| && gates[i] == gate && Needed(gates, changed, i)
  {
    forall gate ensures gate in plan <==> exists i :: 0 <= i < |gates| && gates[i] == gate && Needed(gates, changed, i) {
      PlannedByName(gates, changed, plan, gate);
    }
  }

  lemma PlannedByName(gates: seq<Gate>, changed: seq<string>, plan: seq<Gate>, gate: Gate)
    requires Unrepeated(gates) && forall g :: g in plan ==> g in gates
    requires forall i :: 0 <= i < |gates| ==> (gates[i].id in IDs(plan) <==> Needed(gates, changed, i))
    ensures gate in plan <==> exists i :: 0 <= i < |gates| && gates[i] == gate && Needed(gates, changed, i)
  {
    if gate in plan {
      var k :| 0 <= k < |plan| && plan[k] == gate;
      var i :| 0 <= i < |gates| && gates[i] == gate;
      assert gate.id in IDs(plan);
    }
    if i :| 0 <= i < |gates| && gates[i] == gate && Needed(gates, changed, i) {
      var k := NamedInPlan(gates, plan, i);
    }
  }

  lemma NamedInPlan(gates: seq<Gate>, plan: seq<Gate>, i: nat) returns (k: nat)
    requires Unrepeated(gates) && (forall g :: g in plan ==> g in gates) && i < |gates| && gates[i].id in IDs(plan)
    ensures k < |plan| && plan[k] == gates[i]
  {
    k :| 0 <= k < |plan| && plan[k].id == gates[i].id;
    assert plan[k] in plan;
    var j :| 0 <= j < |gates| && gates[j] == plan[k];
    assert i == j;
  }

  lemma NeededGateInPlan(gates: seq<Gate>, changed: seq<string>, selected: map<string, Gate>, plan: Result<seq<Gate>, Failure>, i: nat)
    returns (k: nat)
    requires ConfigValid(gates) && IsOrdering(gates, changed, selected, plan) && i < |gates| && Needed(gates, changed, i)
    ensures plan.Ok? && PlanOrder(plan.value) && k < |plan.value| && plan.value[k] == gates[i]
  {
    ValidatedPlan(gates, changed, selected, plan);
    NeededIsPlanned(gates, changed, IDs(plan.value), i);
    k := NamedInPlan(gates, plan.value, i);
  }
}
