/**
 The gate part of the configuration check: every gate well formed, identifiers distinct,
 dependencies declared, and no dependency cycle, found by a depth-first search over maps.
 */
module GateConfig {
  import opened Common
  import opened Ordering
  import opened GateSearch

  datatype Gate = Gate(
    id: string, argv: seq<string>, cwd: string, envAllowlist: seq<string>, whenPaths: seq<string>, dependsOn: seq<string>,
    timeoutSeconds: int, resourceClass: string, blocking: bool, cacheClass: string, finalAlways: bool, networkClass: string,
    expectedWrites: seq<string>, redactionPolicy: string)

  /** What an absent map key yields. */
  const ZERO_GATE := Gate("", [], "", [], [], [], 0, "", false, "", false, "", [], "")

  function Slashes(path: string): (r: string)
    ensures |r| == |path|
  {
    seq(|path|, i requires 0 <= i < |path| => if path[i] == '\\' then '/' else path[i])
  }

  predicate RepositoryRelative(path: string)
  {
    var clean := Slashes(path);
    clean != "" && clean[0] != '/' && clean != ".." && !("../" <= clean)
  }

  predicate FieldsValid(gate: Gate)
  {
    && gate.id != "" && gate.argv != []
    && gate.timeoutSeconds >= 1
    && gate.cacheClass in ["worktree_deterministic", "host_volatile", "time_network", "external"]
    && gate.cwd != ""
    && gate.resourceClass in ["cpu", "io", "exclusive", "network", "external"]
    && gate.networkClass in ["none", "local", "external"]
    && (forall p :: p in gate.whenPaths ==> RepositoryRelative(p))
    && (forall p :: p in gate.expectedWrites ==> RepositoryRelative(p))
  }

  /** The map filled in declaration order: the last gate of an identifier. */
  function ByID(gates: seq<Gate>): map<string, Gate>
  {
    if gates == [] then map[] else ByID(gates[..|gates| - 1])[gates[|gates| - 1].id := gates[|gates| - 1]]
  }

  function GraphOf(byID: map<string, Gate>): Graph
  {
    map id | id in byID :: byID[id].dependsOn
  }

  function IDs(gates: seq<Gate>): set<string>
  {
    set i | 0 <= i < |gates| :: gates[i].id
  }

  ghost predicate Unrepeated(gates: seq<Gate>)
  {
    forall i, j :: 0 <= i < j < |gates| ==> gates[i].id != gates[j].id
  }

  /** Everything but the absence of cycles. */
  ghost predicate WellDeclared(gates: seq<Gate>)
  {
    && AllPass(FieldsValid, gates)
    && Unrepeated(gates)
    && forall i :: 0 <= i < |gates| ==> DependenciesDeclared(gates[i], IDs(gates))
  }

  ghost predicate AllPass(ok: Gate -> bool, gates: seq<Gate>)
  {
    forall i :: 0 <= i < |gates| ==> ok(gates[i])
  }

  /** A gate depends on other declared gates only. */
  ghost predicate DependenciesDeclared(gate: Gate, ids: set<string>)
  {
    forall d :: d in gate.dependsOn ==> d != gate.id && d in ids
  }

  ghost predicate ConfigValid(gates: seq<Gate>)
  {
    WellDeclared(gates) && !Cyclic(GraphOf(ByID(gates)))
  }

  lemma {:induction false} ByIDHolds(gates: seq<Gate>)
    ensures ByID(gates).Keys == IDs(gates)
    ensures forall id :: id in ByID(gates) ==> ByID(gates)[id] in gates && ByID(gates)[id].id == id
  {
    if gates != [] {
      var n := |gates| - 1;
      ByIDHolds(gates[..n]);
      assert gates == gates[..n] + [gates[n]];
      IDsStep(gates, n);
      assert gates[..n + 1] == gates;
    }
  }

  lemma IDsStep(gates: seq<Gate>, n: nat)
    requires n < |gates|
    ensures IDs(gates[..n + 1]) == IDs(gates[..n]) + {gates[n].id}
  {
    var a, b := gates[..n + 1], gates[..n];
    assert a[n] == gates[n] && forall i :: 0 <= i < n ==> a[i] == b[i];
  }

  lemma UnrepeatedByID(gates: seq<Gate>, i: nat)
    requires Unrepeated(gates) && i < |gates|
    ensures gates[i].id in ByID(gates) && ByID(gates)[gates[i].id] == gates[i]
  {
    ByIDHolds(gates);
    assert gates[i].id in IDs(gates);
  }

  lemma DeclaredGraphIsComplete(gates: seq<Gate>)
    requires WellDeclared(gates)
    ensures Complete(GraphOf(ByID(gates)))
  {
    var byID := ByID(gates);
    ByIDHolds(gates);
    forall id, d | id in byID && d in byID[id].dependsOn ensures d in byID {
      var i :| 0 <= i < |gates| && gates[i] == byID[id];
      assert DependenciesDeclared(gates[i], IDs(gates));
    }
  }

  // ----- The check -----

  method CollectByID(gates: seq<Gate>) returns (byID: map<string, Gate>)
    ensures byID == ByID(gates)
  {
    byID := map[];
    for i := 0 to |gates|
      invariant byID == ByID(gates[..i])
    {
      assert gates[..i + 1][..i] == gates[..i];
      byID := byID[gates[i].id := gates[i]];
    }
    assert gates[..|gates|] == gates;
  }

  datatype ConfigError = BadGate(at: nat) | InvalidDependency(at: nat) | DependencyCycle(id: string)

  class Search {
    var visiting: set<string>
    var visited: set<string>

    constructor ()
      ensures visiting == {} && visited == {}
    {
      visiting, visited := {}, {};
    }

    /** The recursive visit; `order` is the order in which gates were finished. */
    method Visit(byID: map<string, Gate>, id: string, ghost order: seq<string>)
      returns (err: Option<ConfigError>, ghost next: seq<string>)
      requires id in byID && Complete(GraphOf(byID)) && visited == Elements(order)
      modifies this
      ensures var r := GateSearch.Visit(GraphOf(byID), id, old(visiting), order);
        && (err.None? <==> r.Ok?)
        && (r.Ok? ==> next == r.value && visiting == old(visiting) && visited == Elements(next))
        && (r.Err? && r.error.Cycle? ==> err.Some? && err.value == DependencyCycle(r.error.id))
      decreases byID.Keys - visiting
    {
      ghost var g := GraphOf(byID);
      next := order;
      if id in visiting {
        return Some(DependencyCycle(id)), next;
      }
      assert id in visited <==> id in order;
      if id in visited {
        return None, next;
      }
      ghost var open := visiting + {id};
      visiting := visiting + {id};
      var deps := byID[id].dependsOn;
      assert g[id] == deps;
      for i := 0 to |deps|
        invariant visiting == open && visited == Elements(next)
        invariant VisitAll(g, deps[i..], open, next) == VisitAll(g, deps, open, order)
      {
        assert deps[i] in g[id];
        assert deps[i..][0] == deps[i] && deps[i..][1..] == deps[i + 1..];
        err, next := Visit(byID, deps[i], next);
        if err.Some? {
          return err, next;
        }
      }
      assert deps[|deps|..] == [];
      visiting := visiting - {id};
      visited := visited + {id};
      next := next + [id];
      assert Elements(next) == visited;
      assert visiting == old(visiting);
      err := None;
    }
  }

  /** Fields and identifiers, gate by gate. */
  method CheckGates(ok: Gate -> bool, gates: seq<Gate>) returns (err: Option<ConfigError>)
    ensures err.None? <==> AllPass(ok, gates) && Unrepeated(gates)
    ensures err.Some? ==> err.value.BadGate?
  {
    var seen: set<string> := {};
    for i := 0 to |gates|
      invariant forall id :: id in seen <==> exists k :: 0 <= k < i && gates[k].id == id
      invariant forall k :: 0 <= k < i ==> ok(gates[k])
      invariant forall j, k :: 0 <= j < k < i ==> gates[j].id != gates[k].id
    {
      if !ok(gates[i]) || gates[i].id in seen {
        return Some(BadGate(i));
      }
      seen := seen + {gates[i].id};
    }
    return None;
  }

  /** Dependencies name other declared gates. */
  method CheckDependencies(gates: seq<Gate>, seen: set<string>) returns (err: Option<ConfigError>)
    ensures err.None? <==> forall i :: 0 <= i < |gates| ==> DependenciesDeclared(gates[i], seen)
    ensures err.Some? ==> err.value.InvalidDependency?
  {
    for i := 0 to |gates|
      invariant forall k :: 0 <= k < i ==> DependenciesDeclared(gates[k], seen)
    {
      var deps := gates[i].dependsOn;
      for j := 0 to |deps|
        invariant forall k :: 0 <= k < j ==> deps[k] != gates[i].id && deps[k] in seen
      {
        if deps[j] == gates[i].id || deps[j] !in seen {
          assert deps[j] in gates[i].dependsOn;
          return Some(InvalidDependency(i));
        }
      }
    }
    return None;
  }

  /** The search has finished these roots in this order. */
  ghost predicate Searched(g: Graph, roots: seq<string>, done: set<string>, order: seq<string>)
  {
    Elements(roots) == done && done <= g.Keys && VisitAll(g, roots, {}, []) == Ok(order)
  }

  /** One more root: a failed visit from it shows a cycle. */
  lemma RootStep(g: Graph, roots: seq<string>, done: set<string>, order: seq<string>, id: string)
    requires Complete(g) && Searched(g, roots, done, order) && id in g
    ensures var r := GateSearch.Visit(g, id, {}, order);
      && (r.Err? ==> r.error.Cycle? && Cyclic(g))
      && (r.Ok? ==> Searched(g, roots + [id], done + {id}, r.value))
  {
    VisitAllAppend(g, roots, id, {}, []);
    VisitAllFails(g, roots + [id], {}, [], []);
    assert Elements(roots + [id]) == Elements(roots) + {id};
    forall d | d in roots + [id] ensures d in g { assert d in Elements(roots + [id]); }
  }

  lemma AllSearched(g: Graph, roots: seq<string>, order: seq<string>)
    requires Complete(g) && Searched(g, roots, g.Keys, order)
    ensures !Cyclic(g)
  {
    SearchDecides(g, roots);
  }

  /** The search from every gate, in any order. */
  method CheckCycles(byID: map<string, Gate>) returns (err: Option<ConfigError>)
    requires Complete(GraphOf(byID))
    ensures err.None? <==> !Cyclic(GraphOf(byID))
    ensures err.Some? ==> err.value.DependencyCycle?
  {
    ghost var g := GraphOf(byID);
    var search := new Search();
    var rest := byID.Keys;
    ghost var roots, order := [], [];
    while rest != {}
      invariant rest <= byID.Keys
      invariant fresh(search) && search.visiting == {} && search.visited == Elements(order)
      invariant Searched(g, roots, byID.Keys - rest, order)
      decreases |rest|
    {
      var id :| id in rest;
      RootStep(g, roots, byID.Keys - rest, order, id);
      err, order := search.Visit(byID, id, order);
      if err.Some? {
        return;
      }
      roots, rest := roots + [id], rest - {id};
    }
    AllSearched(g, roots, order);
    err := None;
  }

  /** The check accepts exactly the valid declarations, and reports a cycle exactly when that is all that is wrong. */
  method Validate(gates: seq<Gate>) returns (err: Option<ConfigError>)
    ensures err.None? <==> ConfigValid(gates)
    ensures err.Some? && err.value.DependencyCycle? <==> WellDeclared(gates) && Cyclic(GraphOf(ByID(gates)))
  {
    err := CheckGates(FieldsValid, gates);
    if err.Some? {
      return;
    }
    var seen := IDs(gates);
    err := CheckDependencies(gates, seen);
    if err.Some? {
      return;
    }
    var byID := CollectByID(gates);
    DeclaredGraphIsComplete(gates);
    err := CheckCycles(byID);
  }
}
