/**
 Which gates a change selects and in what order they stand: matching by path, the closure
 over dependencies on a map that grows while it is ranged over, and the topological order.
 */
module GatePlan {
  import opened Common
  import opened Ordering
  import opened GateSearch
  import opened GateConfig
  import Glob

  function Lookup(gates: map<string, Gate>, id: string): Gate
  {
    if id in gates then gates[id] else ZERO_GATE
  }

  // ----- Matching -----

  ghost predicate Matched(gate: Gate, changed: seq<string>)
  {
    Glob.Selects(gate.whenPaths, changed)
  }

  ghost function MatchedIDs(gates: seq<Gate>, changed: seq<string>): set<string>
  {
    set i | 0 <= i < |gates| && Matched(gates[i], changed) :: gates[i].id
  }

  /** The matched gates by identifier, the last of an identifier winning. */
  ghost function MatchedByID(gates: seq<Gate>, changed: seq<string>): map<string, Gate>
  {
    if gates == [] then map[]
    else
      var before, last := MatchedByID(gates[..|gates| - 1], changed), gates[|gates| - 1];
      if Matched(last, changed) then before[last.id := last] else before
  }

  method SelectMatched(gates: seq<Gate>, changed: seq<string>) returns (selected: map<string, Gate>)
    ensures selected == MatchedByID(gates, changed)
  {
    selected := map[];
    for i := 0 to |gates|
      invariant selected == MatchedByID(gates[..i], changed)
    {
      assert gates[..i + 1][..i] == gates[..i];
      var matches := Glob.MatchesAny(gates[i].whenPaths, changed);
      if matches {
        selected := selected[gates[i].id := gates[i]];
      }
    }
    assert gates[..|gates|] == gates;
  }

  lemma {:induction false} MatchedByIDHolds(gates: seq<Gate>, changed: seq<string>)
    ensures MatchedByID(gates, changed).Keys == MatchedIDs(gates, changed)
    ensures forall id :: id in MatchedByID(gates, changed) ==>
      MatchedByID(gates, changed)[id] in gates && MatchedByID(gates, changed)[id].id == id
  {
    if gates != [] {
      var n := |gates| - 1;
      MatchedByIDHolds(gates[..n], changed);
      assert gates == gates[..n] + [gates[n]];
      assert forall i :: 0 <= i < n ==> gates[..n][i] == gates[i];
      assert MatchedIDs(gates, changed) ==
        MatchedIDs(gates[..n], changed) + if Matched(gates[n], changed) then {gates[n].id} else {};
    }
  }

  // ----- Closure -----

  ghost predicate DependencyClosed(g: Graph, ids: set<string>)
  {
    forall id, d :: id in ids && d in Deps(g, id) ==> d in ids
  }

  ghost predicate Encloses(g: Graph, seeds: set<string>, ids: set<string>)
  {
    seeds <= ids && DependencyClosed(g, ids)
  }

  /** The least dependency-closed set that holds the seeds. */
  ghost predicate LeastClosed(g: Graph, seeds: set<string>, ids: set<string>)
  {
    Encloses(g, seeds, ids) && forall other :: Encloses(g, seeds, other) ==> ids <= other
  }

  lemma LeastClosedUnique(g: Graph, seeds: set<string>, a: set<string>, b: set<string>)
    requires LeastClosed(g, seeds, a) && LeastClosed(g, seeds, b)
    ensures a == b
  {
  }

  /** Every identifier the closure can meet. */
  function Nodes(gates: map<string, Gate>): set<string>
  {
    gates.Keys + set id, d | id in gates && d in gates[id].dependsOn :: d
  }

  ghost function Closure(base: map<string, Gate>, seeds: set<string>): set<string>
  {
    set id | id in seeds + Nodes(base) && InEvery(GraphOf(base), seeds, id)
  }

  ghost predicate InEvery(g: Graph, seeds: set<string>, id: string)
  {
    forall other :: Encloses(g, seeds, other) ==> id in other
  }

  lemma ClosureIsLeast(base: map<string, Gate>, seeds: set<string>)
    ensures LeastClosed(GraphOf(base), seeds, Closure(base, seeds))
  {
    var g, least := GraphOf(base), Closure(base, seeds);
    forall id, d | id in least && d in Deps(g, id) ensures d in least {
      assert d in Nodes(base);
      forall other | Encloses(g, seeds, other) ensures d in other { assert id in other; }
    }
    forall other | Encloses(g, seeds, other) ensures least <= other { }
  }

  /** The selection holds the looked-up gate of each of its identifiers, all of them in `world`. */
  ghost predicate Selection(base: map<string, Gate>, world: set<string>, selected: map<string, Gate>)
  {
    selected.Keys <= world && forall id :: id in selected ==> selected[id] == Lookup(base, id)
  }

  ghost predicate DepsSelected(base: map<string, Gate>, selected: set<string>, id: string)
  {
    forall d :: d in Lookup(base, id).dependsOn ==> d in selected
  }

  /** Pulls in one gate's missing dependencies; the range may or may not meet what was added. */
  method PullDependencies(byID: map<string, Gate>, gate: Gate, before: map<string, Gate>, rest: set<string>,
                          ghost base: map<string, Gate>, ghost world: set<string>)
    returns (selected: map<string, Gate>, pending: set<string>)
    requires Selection(base, world, before) && rest <= before.Keys
    requires forall d :: d in gate.dependsOn ==> d in world
    requires forall d :: d !in before ==> Lookup(byID, d) == Lookup(base, d)
    ensures Selection(base, world, selected) && before.Keys <= selected.Keys
    ensures rest <= pending <= rest + (selected.Keys - before.Keys)
    ensures forall d :: d in gate.dependsOn ==> d in selected
  {
    selected, pending := before, rest;
    var deps := gate.dependsOn;
    for k := 0 to |deps|
      invariant Selection(base, world, selected) && before.Keys <= selected.Keys
      invariant rest <= pending <= rest + (selected.Keys - before.Keys)
      invariant forall j :: 0 <= j < k ==> deps[j] in selected
    {
      var d := deps[k];
      if d !in selected {
        selected := selected[d := Lookup(byID, d)];
        if * {
          pending := pending + {d};
        }
      }
    }
  }

  /** One range over the growing map. */
  method Range(byID: map<string, Gate>, start: map<string, Gate>, ghost base: map<string, Gate>, ghost world: set<string>)
    returns (selected: map<string, Gate>)
    requires Selection(base, world, start)
    requires forall id :: id in world ==> DepsSelected(base, world, id)
    requires forall d :: d !in start ==> Lookup(byID, d) == Lookup(base, d)
    ensures Selection(base, world, selected) && start.Keys <= selected.Keys
    ensures forall id :: id in start ==> DepsSelected(base, selected.Keys, id)
  {
    selected := start;
    var pending := start.Keys;
    while pending != {}
      invariant Selection(base, world, selected) && start.Keys <= selected.Keys && pending <= selected.Keys
      invariant forall id :: id in start && id !in pending ==> DepsSelected(base, selected.Keys, id)
      decreases world - selected.Keys, pending
    {
      var id :| id in pending;
      assert DepsSelected(base, world, id);
      ghost var before, rest := selected.Keys, pending - {id};
      selected, pending := PullDependencies(byID, selected[id], selected, pending - {id}, base, world);
      if selected.Keys == before {
        assert pending == rest;
      }
    }
  }

  /** Ranges until one adds nothing: the least closed selection, whatever order the map is ranged in. */
  method Close(byID: map<string, Gate>, matched: map<string, Gate>) returns (selected: map<string, Gate>)
    ensures var base := byID + matched;
      && LeastClosed(GraphOf(base), matched.Keys, selected.Keys)
      && forall id :: id in selected ==> selected[id] == Lookup(base, id)
  {
    ghost var base := byID + matched;
    ghost var world := Closure(base, matched.Keys);
    ClosureIsLeast(base, matched.Keys);
    ClosedDeps(base, world);
    selected := matched;
    var again := true;
    while again
      invariant Selection(base, world, selected) && matched.Keys <= selected.Keys
      invariant !again ==> forall id :: id in selected ==> DepsSelected(base, selected.Keys, id)
      decreases world - selected.Keys, again
    {
      var next := Range(byID, selected, base, world);
      again := next.Keys != selected.Keys;
      selected := next;
    }
    ClosedDeps(base, selected.Keys);
    LeastInside(GraphOf(base), matched.Keys, selected.Keys, world);
  }

  lemma ClosedDeps(base: map<string, Gate>, ids: set<string>)
    ensures DependencyClosed(GraphOf(base), ids) <==> forall id :: id in ids ==> DepsSelected(base, ids, id)
  {
    forall id ensures Deps(GraphOf(base), id) == Lookup(base, id).dependsOn { }
  }

  lemma LeastInside(g: Graph, seeds: set<string>, ids: set<string>, least: set<string>)
    requires LeastClosed(g, seeds, least) && Encloses(g, seeds, ids) && ids <= least
    ensures LeastClosed(g, seeds, ids)
  {
    assert ids == least;
  }

  // ----- Order -----

  /** The selected gates with their dependencies in the order they are visited. */
  function SortedGraph(gates: map<string, Gate>): Graph
  {
    map id | id in gates :: SortedStrings(gates[id].dependsOn)
  }

  class Sorter {
    /** 0 or absent: new; 1: open; 2: finished. */
    var state: map<string, nat>
    var order: seq<string>

    constructor ()
      ensures Holds({}) && order == []
    {
      state, order := map[], [];
    }

    function StateOf(id: string): nat
      reads this
    {
      if id in state then state[id] else 0
    }

    ghost predicate Holds(visiting: set<string>)
      reads this
    {
      forall id :: (StateOf(id) == 1 <==> id in visiting) && (StateOf(id) == 2 <==> id in order)
    }

    method Visit(gates: map<string, Gate>, id: string, ghost visiting: set<string>) returns (err: Option<Failure>)
      requires id in gates && Holds(visiting)
      modifies this
      ensures match GateSearch.Visit(SortedGraph(gates), id, visiting, old(order))
        case Err(e) => err == Some(e)
        case Ok(next) => err.None? && order == next && Holds(visiting)
      decreases gates.Keys - visiting
    {
      ghost var g, start := SortedGraph(gates), order;
      if StateOf(id) == 1 {
        return Some(Cycle(id));
      }
      if StateOf(id) == 2 {
        return None;
      }
      state := state[id := 1];
      ghost var open := visiting + {id};
      var deps := SortedStrings(gates[id].dependsOn);
      assert g[id] == deps;
      assert Holds(open);
      for i := 0 to |deps|
        invariant Holds(open)
        invariant VisitAll(g, deps[i..], open, order) == VisitAll(g, deps, open, start)
      {
        assert deps[i..][0] == deps[i] && deps[i..][1..] == deps[i + 1..];
        if deps[i] !in gates {
          return Some(Missing(deps[i]));
        }
        err := Visit(gates, deps[i], open);
        if err.Some? {
          return;
        }
      }
      assert deps[|deps|..] == [];
      state := state[id := 2];
      order := order + [id];
      err := None;
    }
  }

  method Topological(gates: map<string, Gate>) returns (r: Result<seq<string>, Failure>)
    ensures r == VisitAll(SortedGraph(gates), Listing(gates.Keys), {}, [])
  {
    ghost var g := SortedGraph(gates);
    var ids := SortedSet(gates.Keys);
    ListingMembers(gates.Keys);
    var sorter := new Sorter();
    for i := 0 to |ids|
      invariant fresh(sorter) && sorter.Holds({})
      invariant VisitAll(g, ids[i..], {}, sorter.order) == VisitAll(g, ids, {}, [])
    {
      assert ids[i..][0] == ids[i] && ids[i..][1..] == ids[i + 1..];
      var err := sorter.Visit(gates, ids[i], {});
      if err.Some? {
        return Err(err.value);
      }
    }
    assert ids[|ids|..] == [];
    return Ok(sorter.order);
  }

  /** Sorting every dependency list changes neither the paths nor their ends. */
  lemma SortedGraphPaths(gates: map<string, Gate>)
    ensures Cyclic(SortedGraph(gates)) <==> Cyclic(GraphOf(gates))
    ensures Complete(SortedGraph(gates)) <==> Complete(GraphOf(gates))
  {
    var a, b := SortedGraph(gates), GraphOf(gates);
    forall id, d ensures d in Deps(a, id) <==> d in Deps(b, id) {
      if id in gates { SortedStringsElements(gates[id].dependsOn); }
    }
    forall p ensures IsPath(a, p) <==> IsPath(b, p) { }
    forall id, d | id in gates ensures d in a[id] <==> d in b[id] { assert d in Deps(a, id) <==> d in Deps(b, id); }
  }

  /** A part of an acyclic graph is acyclic. */
  lemma SubgraphAcyclic(part: map<string, Gate>, whole: map<string, Gate>)
    requires forall id :: id in part ==> part[id] == Lookup(whole, id)
    requires !Cyclic(GraphOf(whole))
    ensures !Cyclic(GraphOf(part))
  {
    var a, b := GraphOf(part), GraphOf(whole);
    forall p | IsPath(a, p) ensures IsPath(b, p) {
      forall k | 0 <= k < |p| - 1 ensures p[k + 1] in Deps(b, p[k]) {
        assert p[k + 1] in Deps(a, p[k]);
      }
    }
  }

  // ----- The plan -----

  function PlanOf(selected: map<string, Gate>, order: seq<string>): (plan: seq<Gate>)
    ensures |plan| == |order|
  {
    seq(|order|, i requires 0 <= i < |order| => Lookup(selected, order[i]))
  }

  /** Each gate once, and all its dependencies before it. */
  ghost predicate PlanOrder(plan: seq<Gate>)
  {
    && (forall i, j :: 0 <= i < j < |plan| ==> plan[i].id != plan[j].id)
    && forall i, d :: 0 <= i < |plan| && d in plan[i].dependsOn ==> exists j :: 0 <= j < i && plan[j].id == d
  }

  /** The selection is the closure of the matched gates, each as looked up. */
  ghost predicate SelectedFor(gates: seq<Gate>, changed: seq<string>, base: map<string, Gate>, selected: map<string, Gate>)
  {
    && LeastClosed(GraphOf(base), MatchedIDs(gates, changed), selected.Keys)
    && forall id :: id in selected ==> selected[id] == Lookup(base, id)
  }

  /**
   For every validated configuration and every set of changed paths the order never fails, and
   the plan lists exactly the least dependency-closed set that holds the matched gates, each gate
   once, as declared, and after all its dependencies.
   */
  lemma ValidatedGatesAreOrdered(gates: seq<Gate>, changed: seq<string>, selected: map<string, Gate>)
    requires ConfigValid(gates)
    requires SelectedFor(gates, changed, ByID(gates) + MatchedByID(gates, changed), selected)
    ensures SelectedFor(gates, changed, ByID(gates), selected) && selected.Keys <= IDs(gates)
    ensures var r := VisitAll(SortedGraph(selected), Listing(selected.Keys), {}, []);
      r.Ok? && Elements(r.value) == selected.Keys && Distinct(r.value) && PlanOrder(PlanOf(selected, r.value))
  {
    MatchedIsPart(gates, changed);
    SelectedDeclared(gates, changed, selected);
    SelectedGraph(gates, selected);
    CompleteSelectionOrders(selected);
  }

  lemma CompleteSelectionOrders(selected: map<string, Gate>)
    requires Complete(SortedGraph(selected)) && !Cyclic(SortedGraph(selected))
    requires forall id :: id in selected ==> selected[id].id == id
    ensures var r := VisitAll(SortedGraph(selected), Listing(selected.Keys), {}, []);
      r.Ok? && Elements(r.value) == selected.Keys && Distinct(r.value) && PlanOrder(PlanOf(selected, r.value))
  {
    var ids := Listing(selected.Keys);
    ListingOf(selected.Keys);
    SearchDecides(SortedGraph(selected), ids);
    OrderIsPlanOrder(selected, VisitAll(SortedGraph(selected), ids, {}, []).value);
  }

  /** With distinct identifiers the matched gates are the declared ones. */
  lemma MatchedIsPart(gates: seq<Gate>, changed: seq<string>)
    requires Unrepeated(gates)
    ensures ByID(gates) + MatchedByID(gates, changed) == ByID(gates)
  {
    var byID, matched := ByID(gates), MatchedByID(gates, changed);
    MatchedByIDHolds(gates, changed);
    ByIDHolds(gates);
    forall id | id in matched ensures id in byID && matched[id] == byID[id] {
      var i :| 0 <= i < |gates| && gates[i] == matched[id];
      UnrepeatedByID(gates, i);
    }
  }

  /** The closure of declared gates holds declared gates only, under their own identifiers. */
  lemma SelectedDeclared(gates: seq<Gate>, changed: seq<string>, selected: map<string, Gate>)
    requires WellDeclared(gates) && SelectedFor(gates, changed, ByID(gates), selected)
    ensures selected.Keys <= IDs(gates) && DependencyClosed(GraphOf(ByID(gates)), selected.Keys)
    ensures forall id :: id in selected ==> selected[id].id == id && selected[id] == Lookup(ByID(gates), id)
  {
    ByIDHolds(gates);
    DeclaredGraphIsComplete(gates);
    assert MatchedIDs(gates, changed) <= IDs(gates);
    assert Encloses(GraphOf(ByID(gates)), MatchedIDs(gates, changed), ByID(gates).Keys);
  }

  /** A closed part of a validated configuration is complete and acyclic. */
  lemma SelectedGraph(gates: seq<Gate>, selected: map<string, Gate>)
    requires !Cyclic(GraphOf(ByID(gates))) && DependencyClosed(GraphOf(ByID(gates)), selected.Keys)
    requires forall id :: id in selected ==> selected[id] == Lookup(ByID(gates), id)
    ensures Complete(SortedGraph(selected)) && !Cyclic(SortedGraph(selected))
  {
    var byID := ByID(gates);
    SubgraphAcyclic(selected, byID);
    forall id, d | id in selected && d in selected[id].dependsOn ensures d in selected {
      assert d in Deps(GraphOf(byID), id);
    }
    SortedGraphPaths(selected);
  }

  lemma OrderIsPlanOrder(selected: map<string, Gate>, order: seq<string>)
    requires TopoSorted(SortedGraph(selected), order)
    requires forall id :: id in selected ==> selected[id].id == id
    ensures PlanOrder(PlanOf(selected, order))
  {
    var plan := PlanOf(selected, order);
    assert forall i :: 0 <= i < |order| ==> plan[i].id == order[i];
    forall i, d | 0 <= i < |plan| && d in plan[i].dependsOn ensures exists j :: 0 <= j < i && plan[j].id == d {
      SortedStringsElements(plan[i].dependsOn);
      assert d in SortedGraph(selected)[order[i]];
      var j :| 0 <= j < i && order[..i][j] == d;
      assert plan[j].id == d;
    }
  }

  lemma PlanIDs(selected: map<string, Gate>, order: seq<string>)
    requires Elements(order) == selected.Keys && forall id :: id in selected ==> selected[id].id == id
    ensures IDs(PlanOf(selected, order)) == selected.Keys
  {
    var plan := PlanOf(selected, order);
    forall i | 0 <= i < |order| ensures plan[i].id == order[i] && order[i] in selected.Keys { assert order[i] in Elements(order); }
    forall id | id in selected.Keys ensures id in IDs(plan) {
      assert id in Elements(order);
      var i :| 0 <= i < |order| && order[i] == id;
      assert plan[i].id == id;
    }
  }

  /** What a plan is made of: the closure of the matched gates, in search order. */
  ghost predicate IsOrdering(gates: seq<Gate>, changed: seq<string>, selected: map<string, Gate>, plan: Result<seq<Gate>, Failure>)
  {
    && SelectedFor(gates, changed, ByID(gates) + MatchedByID(gates, changed), selected)
    && plan ==
       match VisitAll(SortedGraph(selected), Listing(selected.Keys), {}, [])
       case Err(e) => Err(e)
       case Ok(order) => Ok(PlanOf(selected, order))
  }

  /** A validated configuration's plan: the least closed set that holds the matched gates, in dependency order. */
  lemma ValidatedPlan(gates: seq<Gate>, changed: seq<string>, selected: map<string, Gate>, plan: Result<seq<Gate>, Failure>)
    requires ConfigValid(gates) && IsOrdering(gates, changed, selected, plan)
    ensures plan.Ok? && PlanOrder(plan.value)
    ensures LeastClosed(GraphOf(ByID(gates)), MatchedIDs(gates, changed), IDs(plan.value))
    ensures forall gate :: gate in plan.value ==> gate in gates
  {
    ValidatedGatesAreOrdered(gates, changed, selected);
    SelectedDeclared(gates, changed, selected);
    var order := VisitAll(SortedGraph(selected), Listing(selected.Keys), {}, []).value;
    PlanIDs(selected, order);
    PlanHoldsDeclared(gates, selected, order);
  }

  lemma PlanHoldsDeclared(gates: seq<Gate>, selected: map<string, Gate>, order: seq<string>)
    requires Elements(order) == selected.Keys && selected.Keys <= IDs(gates)
    requires forall id :: id in selected ==> selected[id] == Lookup(ByID(gates), id)
    ensures forall gate :: gate in PlanOf(selected, order) ==> gate in gates
  {
    ByIDHolds(gates);
    forall i | 0 <= i < |order| ensures PlanOf(selected, order)[i] in gates {
      assert order[i] in Elements(order);
      assert order[i] in selected && order[i] in ByID(gates);
    }
  }

  /** The gates of a plan in order, before their paths and executables are resolved. */
  method OrderGates(gates: seq<Gate>, changed: seq<string>) returns (plan: Result<seq<Gate>, Failure>)
    ensures exists selected :: IsOrdering(gates, changed, selected, plan)
    ensures ConfigValid(gates) ==>
      plan.Ok? && PlanOrder(plan.value) && LeastClosed(GraphOf(ByID(gates)), MatchedIDs(gates, changed), IDs(plan.value))
  {
    MatchedByIDHolds(gates, changed);
    var matched := SelectMatched(gates, changed);
    var byID := CollectByID(gates);
    var closed := Close(byID, matched);
    var order := Topological(closed);
    match order {
      case Err(e) => plan := Err(e);
      case Ok(ids) => plan := Ok(PlanOf(closed, ids));
    }
    assert IsOrdering(gates, changed, closed, plan);
    if ConfigValid(gates) {
      ValidatedPlan(gates, changed, closed, plan);
    }
  }
}
