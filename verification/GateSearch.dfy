/**
 Depth-first search over gate dependencies, as one function: the search that the
 configuration check runs to find cycles and the one that puts a plan in order.
 */
module GateSearch {
  import opened Common
  import opened Ordering

  /** Each gate's dependencies, in the order they are visited. */
  type Graph = map<string, seq<string>>

  function Deps(g: Graph, id: string): seq<string>
  {
    if id in g then g[id] else []
  }

  ghost predicate IsPath(g: Graph, p: seq<string>)
  {
    p != [] && forall k :: 0 <= k < |p| - 1 ==> p[k + 1] in Deps(g, p[k])
  }

  ghost predicate Cyclic(g: Graph)
  {
    exists p :: IsPath(g, p) && |p| >= 2 && p[0] == p[|p| - 1]
  }

  /** Every dependency is a gate of the graph. */
  ghost predicate Complete(g: Graph)
  {
    forall id, d :: id in g && d in g[id] ==> d in g
  }

  /** Each gate once, after all its dependencies. */
  ghost predicate TopoSorted(g: Graph, order: seq<string>)
  {
    && Distinct(order)
    && (forall k :: 0 <= k < |order| ==> order[k] in g)
    && forall k, d :: 0 <= k < |order| && d in g[order[k]] ==> d in order[..k]
  }

  // ----- The search -----

  datatype Failure = Cycle(id: string) | Missing(id: string)

  /** Visits a list of gates; `visiting` are the open ones and `order` the finished ones. */
  function VisitAll(g: Graph, ids: seq<string>, visiting: set<string>, order: seq<string>): Result<seq<string>, Failure>
    decreases g.Keys - visiting, |ids|
  {
    if ids == [] then Ok(order)
    else if ids[0] !in g then Err(Missing(ids[0]))
    else
      match Visit(g, ids[0], visiting, order)
      case Err(e) => Err(e)
      case Ok(next) => VisitAll(g, ids[1..], visiting, next)
  }

  function Visit(g: Graph, id: string, visiting: set<string>, order: seq<string>): Result<seq<string>, Failure>
    requires id in g
    decreases g.Keys - visiting, 0
  {
    if id in visiting then Err(Cycle(id))
    else if id in order then Ok(order)
    else
      assert id in g.Keys - visiting && id !in g.Keys - (visiting + {id});
      match VisitAll(g, g[id], visiting + {id}, order)
      case Err(e) => Err(e)
      case Ok(next) => Ok(next + [id])
  }

  /** Visiting a list is visiting its last gate after the others. */
  lemma {:induction false} VisitAllAppend(g: Graph, ids: seq<string>, id: string, visiting: set<string>, order: seq<string>)
    requires id in g
    ensures VisitAll(g, ids + [id], visiting, order) ==
      match VisitAll(g, ids, visiting, order)
      case Err(e) => Err(e)
      case Ok(next) => Visit(g, id, visiting, next)
    decreases |ids|
  {
    if ids == [] {
      assert ([] + [id])[1..] == [];
    } else if ids[0] in g {
      assert (ids + [id])[1..] == ids[1..] + [id];
      var first := Visit(g, ids[0], visiting, order);
      if first.Ok? {
        VisitAllAppend(g, ids[1..], id, visiting, first.value);
      }
    }
  }

  // ----- What a successful search gives -----

  /** Later finished, same start. */
  ghost predicate Extends(g: Graph, order: seq<string>, next: seq<string>, visiting: set<string>)
  {
    order <= next && TopoSorted(g, next) && Elements(next) !! visiting
  }

  lemma {:induction false} VisitAllSorts(g: Graph, ids: seq<string>, visiting: set<string>, order: seq<string>)
    requires TopoSorted(g, order) && Elements(order) !! visiting
    ensures var r := VisitAll(g, ids, visiting, order);
      r.Ok? ==> Extends(g, order, r.value, visiting) && forall id :: id in ids ==> id in r.value
    decreases g.Keys - visiting, |ids|
  {
    if ids != [] && ids[0] in g {
      VisitSorts(g, ids[0], visiting, order);
      var first := Visit(g, ids[0], visiting, order);
      if first.Ok? {
        VisitAllSorts(g, ids[1..], visiting, first.value);
        assert forall id :: id in ids ==> id == ids[0] || id in ids[1..];
      }
    }
  }

  lemma {:induction false} VisitSorts(g: Graph, id: string, visiting: set<string>, order: seq<string>)
    requires id in g && TopoSorted(g, order) && Elements(order) !! visiting
    ensures var r := Visit(g, id, visiting, order);
      r.Ok? ==> Extends(g, order, r.value, visiting) && id in r.value
    decreases g.Keys - visiting, 0
  {
    if id !in visiting && id !in order {
      assert id in g.Keys - visiting && id !in g.Keys - (visiting + {id});
      VisitAllSorts(g, g[id], visiting + {id}, order);
      var r := VisitAll(g, g[id], visiting + {id}, order);
      if r.Ok? {
        FinishSorted(g, r.value, id);
        assert Elements(r.value + [id]) == Elements(r.value) + {id};
      }
    }
  }

  lemma FinishSorted(g: Graph, order: seq<string>, id: string)
    requires id in g && TopoSorted(g, order) && id !in Elements(order) && forall d :: d in g[id] ==> d in order
    ensures TopoSorted(g, order + [id])
  {
    var next := order + [id];
    assert forall k :: 0 <= k < |order| ==> next[k] == order[k] && next[..k] == order[..k];
    assert next[..|order|] == order;
  }

  /** Along a path through sorted gates the position falls. */
  lemma {:induction false} PathDescends(g: Graph, order: seq<string>, p: seq<string>, k: nat)
    requires TopoSorted(g, order) && IsPath(g, p) && |p| >= 2 && k < |order| && p[0] == order[k]
    ensures p[|p| - 1] in order[..k]
    decreases |p|
  {
    assert p[1] in Deps(g, p[0]);
    var j :| 0 <= j < k && order[..k][j] == p[1];
    if |p| > 2 {
      PathDescends(g, order, p[1..], j);
      assert order[..j] <= order[..k];
    }
  }

  lemma SortedIsAcyclic(g: Graph, order: seq<string>)
    requires TopoSorted(g, order) && g.Keys <= Elements(order)
    ensures !Cyclic(g)
  {
    if p :| IsPath(g, p) && |p| >= 2 && p[0] == p[|p| - 1] {
      assert p[1] in Deps(g, p[0]);
      assert p[0] in Elements(order);
      var k :| 0 <= k < |order| && order[k] == p[0];
      PathDescends(g, order, p, k);
      assert false;
    }
  }

  // ----- What a failed search means -----

  /** The open gates are a path, each depending on the next, that may continue to any of `ids`. */
  ghost predicate OpenPath(g: Graph, stack: seq<string>, visiting: set<string>, ids: seq<string>)
  {
    Elements(stack) == visiting && (stack != [] ==> IsPath(g, stack) && forall id :: id in ids ==> id in Deps(g, stack[|stack| - 1]))
  }

  ghost predicate Explains(g: Graph, ids: seq<string>, e: Failure)
  {
    match e
    case Cycle(_) => Cyclic(g)
    case Missing(d) => d !in g && (d in ids || exists id :: id in g && d in g[id])
  }

  lemma {:induction false} VisitAllFails(g: Graph, ids: seq<string>, visiting: set<string>, order: seq<string>, stack: seq<string>)
    requires OpenPath(g, stack, visiting, ids)
    ensures var r := VisitAll(g, ids, visiting, order);
      r.Err? ==> Explains(g, ids, r.error)
    decreases g.Keys - visiting, |ids|
  {
    if ids != [] && ids[0] in g {
      VisitFails(g, ids[0], visiting, order, stack, ids);
      var first := Visit(g, ids[0], visiting, order);
      if first.Ok? {
        assert forall id :: id in ids[1..] ==> id in ids;
        VisitAllFails(g, ids[1..], visiting, first.value, stack);
      }
    }
  }

  lemma {:induction false} VisitFails(g: Graph, id: string, visiting: set<string>, order: seq<string>, stack: seq<string>, ids: seq<string>)
    requires id in g && id in ids && OpenPath(g, stack, visiting, ids)
    ensures var r := Visit(g, id, visiting, order);
      r.Err? ==> Explains(g, ids, r.error)
    decreases g.Keys - visiting, 0
  {
    if id in visiting {
      assert id in Elements(stack);
      var k :| 0 <= k < |stack| && stack[k] == id;
      var cycle := stack[k..] + [id];
      assert cycle[|stack| - k - 1] == stack[|stack| - 1];
      assert IsPath(g, cycle) && |cycle| >= 2 && cycle[0] == cycle[|cycle| - 1];
    } else if id !in order {
      assert id in g.Keys - visiting && id !in g.Keys - (visiting + {id});
      var longer := stack + [id];
      assert longer[|stack|] == id && forall k :: 0 <= k < |stack| ==> longer[k] == stack[k];
      assert Elements(longer) == visiting + {id};
      VisitAllFails(g, g[id], visiting + {id}, order, longer);
    }
  }

  // ----- The search decides -----

  lemma SearchDecides(g: Graph, roots: seq<string>)
    requires Complete(g) && Elements(roots) == g.Keys
    ensures var r := VisitAll(g, roots, {}, []);
      && (r.Ok? <==> !Cyclic(g))
      && (r.Ok? ==> TopoSorted(g, r.value) && Elements(r.value) == g.Keys)
      && (r.Err? ==> r.error.Cycle?)
  {
    var r := VisitAll(g, roots, {}, []);
    VisitAllFails(g, roots, {}, [], []);
    VisitAllSorts(g, roots, {}, []);
    assert forall id :: id in roots <==> id in Elements(roots);
    if r.Ok? {
      forall id ensures id in Elements(r.value) <==> id in g.Keys {
        if id in g.Keys { assert id in roots; }
      }
      SortedIsAcyclic(g, r.value);
    }
  }
}
