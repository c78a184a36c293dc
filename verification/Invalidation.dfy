/**
 Which tasks must be reviewed again after a mutation: the fixpoint over dependency
 neighbours, and what it computes on a plan whose dependencies were linked by contract type.
 */
module Invalidation {
  import opened Ordering
  import opened Planner

  // ----- The result under construction -----

  /** One recorded reason for one task. */
  datatype Mark = Mark(id: string, reason: string)

  const DIRECT := "direct path changed"
  const DEPENDENCY := "dependency neighbor changed"
  const DEPENDENT := "dependent neighbor changed"
  const SHARED := "shared contract consumer changed"
  const SEMANTIC := "semantic input changed"

  ghost predicate Records(reasons: map<string, seq<string>>, marks: set<Mark>)
  {
    forall id, reason :: Mark(id, reason) in marks <==> id in reasons && reason in reasons[id]
  }

  /** The reasons recorded for one task. */
  ghost function ReasonsFor(marks: set<Mark>, id: string): set<string>
  {
    set m | m in marks && m.id == id :: m.reason
  }

  /** The finished form of the reasons: a sorted list for each task. */
  ghost function ReasonLists(ids: set<string>, marks: set<Mark>): map<string, seq<string>>
  {
    map id | id in ids :: Listing(ReasonsFor(marks, id))
  }

  class Reload {
    var mustReload: seq<string>
    var reasons: map<string, seq<string>>

    constructor ()
      ensures Holds({}, {}) && mustReload == []
    {
      mustReload, reasons := [], map[];
    }

    /** The identifiers and the marks it holds, each once. */
    ghost predicate Holds(ids: set<string>, marks: set<Mark>)
      reads this
    {
      && Distinct(mustReload) && Elements(mustReload) == ids
      && reasons.Keys == ids && Records(reasons, marks)
      && forall id :: id in reasons ==> Distinct(reasons[id])
    }

    method HasReload(id: string, ghost ids: set<string>, ghost marks: set<Mark>) returns (found: bool)
      requires Holds(ids, marks)
      ensures found <==> id in ids
    {
      for k := 0 to |mustReload|
        invariant id !in mustReload[..k]
      {
        if mustReload[k] == id {
          return true;
        }
        assert mustReload[..k + 1] == mustReload[..k] + [mustReload[k]];
      }
      assert mustReload[..|mustReload|] == mustReload;
      return false;
    }

    method Size(ghost ids: set<string>, ghost marks: set<Mark>) returns (n: nat)
      requires Holds(ids, marks)
      ensures n == |ids|
    {
      DistinctSize(mustReload);
      return |mustReload|;
    }

    method Add(id: string, reason: string, ghost ids: set<string>, ghost marks: set<Mark>)
      requires Holds(ids, marks)
      modifies this
      ensures Holds(ids + {id}, marks + {Mark(id, reason)})
    {
      var found := HasReload(id, ids, marks);
      if !found {
        mustReload := mustReload + [id];
      }
      var known := if id in reasons then reasons[id] else [];
      if reason !in known {
        reasons := reasons[id := known + [reason]];
      }
    }

    /** Sorts every list of reasons. */
    method SortReasons()
      modifies `reasons
      ensures reasons.Keys == old(reasons).Keys
      ensures forall id :: id in reasons ==> reasons[id] == SortedStrings(old(reasons)[id])
    {
      ghost var was := reasons;
      var rest := reasons.Keys;
      while rest != {}
        invariant rest <= reasons.Keys == was.Keys
        invariant forall id :: id in reasons ==> reasons[id] == if id in rest then was[id] else SortedStrings(was[id])
        decreases |rest|
      {
        var id :| id in rest;
        reasons := reasons[id := SortedStrings(reasons[id])];
        rest := rest - {id};
      }
    }

    method Finalize(ghost ids: set<string>, ghost marks: set<Mark>)
      requires Holds(ids, marks)
      modifies this
      ensures mustReload == Listing(ids) && reasons == ReasonLists(ids, marks)
    {
      ghost var was := reasons;
      ListingUnique(ids, mustReload);
      mustReload := SortedStrings(mustReload);
      SortReasons();
      SortedReasonLists(was, reasons, ids, marks);
    }
  }

  lemma SortedReasonLists(was: map<string, seq<string>>, now: map<string, seq<string>>, ids: set<string>, marks: set<Mark>)
    requires was.Keys == now.Keys == ids && Records(was, marks)
    requires forall id :: id in was ==> Distinct(was[id]) && now[id] == SortedStrings(was[id])
    ensures now == ReasonLists(ids, marks)
  {
    forall id | id in ids ensures now[id] == Listing(ReasonsFor(marks, id)) {
      SortedReasons(was, marks, id);
    }
  }

  lemma SortedReasons(reasons: map<string, seq<string>>, marks: set<Mark>, id: string)
    requires id in reasons && Distinct(reasons[id]) && Records(reasons, marks)
    ensures SortedStrings(reasons[id]) == Listing(ReasonsFor(marks, id))
  {
    forall r ensures r in ReasonsFor(marks, id) <==> r in Elements(reasons[id]) {
      if r in reasons[id] { assert Mark(id, r) in marks; }
    }
    ListingUnique(ReasonsFor(marks, id), reasons[id]);
  }

  // ----- What the fixpoint computes on any plan -----

  /** `b` is a dependency of a task named `a`, or names a task that depends on the task `a`. */
  ghost predicate Neighbours(tasks: seq<Task>, a: string, b: string)
  {
    || (exists t :: t in tasks && t.id == a && b in t.dependencyTasks)
    || ((exists s :: s in tasks && s.id == a) && exists t :: t in tasks && t.id == b && a in t.dependencyTasks)
  }

  ghost predicate IsChain(tasks: seq<Task>, chain: seq<string>)
  {
    chain != [] && forall k :: 0 <= k < |chain| - 1 ==> Neighbours(tasks, chain[k], chain[k + 1])
  }

  ghost predicate Reached(tasks: seq<Task>, seeds: set<string>, id: string)
  {
    exists chain :: IsChain(tasks, chain) && chain[0] in seeds && chain[|chain| - 1] == id
  }

  predicate Touches(t: Task, changed: set<string>)
  {
    exists k :: 0 <= k < |t.paths| && t.paths[k].path in changed
  }

  function Seeds(tasks: seq<Task>, changed: set<string>): set<string>
  {
    set i | 0 <= i < |tasks| && Touches(tasks[i], changed) :: tasks[i].id
  }

  lemma SeedReached(tasks: seq<Task>, seeds: set<string>, id: string)
    requires id in seeds
    ensures Reached(tasks, seeds, id)
  {
    assert IsChain(tasks, [id]);
  }

  lemma StepReached(tasks: seq<Task>, seeds: set<string>, a: string, b: string)
    requires Reached(tasks, seeds, a) && Neighbours(tasks, a, b)
    ensures Reached(tasks, seeds, b)
  {
    var chain :| IsChain(tasks, chain) && chain[0] in seeds && chain[|chain| - 1] == a;
    assert IsChain(tasks, chain + [b]);
  }

  ghost predicate ClosedUnder(tasks: seq<Task>, ids: set<string>)
  {
    forall a, b :: a in ids && Neighbours(tasks, a, b) ==> b in ids
  }

  lemma {:induction false} ChainStays(tasks: seq<Task>, ids: set<string>, chain: seq<string>)
    requires ClosedUnder(tasks, ids) && IsChain(tasks, chain) && chain[0] in ids
    ensures chain[|chain| - 1] in ids
    decreases |chain|
  {
    if |chain| > 1 {
      var init := chain[..|chain| - 1];
      ChainStays(tasks, ids, init);
      assert Neighbours(tasks, chain[|chain| - 2], chain[|chain| - 1]);
    }
  }

  /** A closed set that holds the seeds holds everything reached. */
  lemma ClosedHoldsReached(tasks: seq<Task>, seeds: set<string>, ids: set<string>, id: string)
    requires ClosedUnder(tasks, ids) && seeds <= ids && Reached(tasks, seeds, id)
    ensures id in ids
  {
    var chain :| IsChain(tasks, chain) && chain[0] in seeds && chain[|chain| - 1] == id;
    ChainStays(tasks, ids, chain);
  }

  /** Every identifier the loop can ever add. */
  function Universe(tasks: seq<Task>): set<string>
  {
    (set i | 0 <= i < |tasks| :: tasks[i].id) + set i, d | 0 <= i < |tasks| && d in tasks[i].dependencyTasks :: d
  }

  /** Tasks that share a contract type with a reloaded task. */
  ghost function Consumers(tasks: seq<Task>, ids: set<string>): set<string>
  {
    set i | 0 <= i < |tasks| && SharesType(tasks, ids, tasks[i]) :: tasks[i].id
  }

  ghost predicate SharesType(tasks: seq<Task>, ids: set<string>, t: Task)
  {
    exists id :: id in ids && id in TaskByID(tasks) && Overlap(t.contractTypes, TaskByID(tasks)[id].contractTypes)
  }

  ghost function ReachedSet(tasks: seq<Task>, seeds: set<string>): set<string>
  {
    set id | id in seeds + Universe(tasks) && Reached(tasks, seeds, id)
  }

  /** All neighbours of one task are marked, with the reasons. */
  ghost predicate Spread(tasks: seq<Task>, task: Task, ids: set<string>, marks: set<Mark>)
  {
    && (forall d :: d in task.dependencyTasks ==> d in ids && Mark(d, DEPENDENCY) in marks)
    && (forall p :: p in tasks && task.id in p.dependencyTasks ==> p.id in ids && Mark(p.id, DEPENDENT) in marks)
  }

  ghost predicate Saturated(tasks: seq<Task>, ids: set<string>, marks: set<Mark>)
  {
    forall t :: t in tasks && t.id in ids ==> Spread(tasks, t, ids, marks)
  }

  /** The marks that the neighbours of the given identifiers carry. */
  function NeighbourMarks(tasks: seq<Task>, ids: set<string>): set<Mark>
  {
    (set i, d | 0 <= i < |tasks| && tasks[i].id in ids && d in tasks[i].dependencyTasks :: Mark(d, DEPENDENCY)) +
    (set i, p | 0 <= i < |tasks| && tasks[i].id in ids && 0 <= p < |tasks| && tasks[i].id in tasks[p].dependencyTasks ::
      Mark(tasks[p].id, DEPENDENT))
  }

  function AllMarked(ids: set<string>, reason: string): set<Mark>
  {
    set id | id in ids :: Mark(id, reason)
  }

  // ----- The loops -----

  method MarkDirect(r: Reload, tasks: seq<Task>, changed: set<string>)
    requires r.Holds({}, {})
    modifies r
    ensures r.Holds(Seeds(tasks, changed), AllMarked(Seeds(tasks, changed), DIRECT))
  {
    for i := 0 to |tasks|
      invariant r.Holds(Seeds(tasks[..i], changed), AllMarked(Seeds(tasks[..i], changed), DIRECT))
    {
      SeedsStep(tasks, changed, i);
      MarkTouched(r, tasks[i], changed, Seeds(tasks[..i], changed));
    }
    assert tasks[..|tasks|] == tasks;
  }

  method MarkTouched(r: Reload, task: Task, changed: set<string>, ghost ids: set<string>)
    requires r.Holds(ids, AllMarked(ids, DIRECT))
    modifies r
    ensures var after := ids + if Touches(task, changed) then {task.id} else {};
      r.Holds(after, AllMarked(after, DIRECT))
  {
    ghost var touched := false;
    for k := 0 to |task.paths|
      invariant touched <==> exists j :: 0 <= j < k && task.paths[j].path in changed
      invariant var after := ids + if touched then {task.id} else {};
        r.Holds(after, AllMarked(after, DIRECT))
    {
      if task.paths[k].path in changed {
        ghost var now := ids + if touched then {task.id} else {};
        r.Add(task.id, DIRECT, now, AllMarked(now, DIRECT));
        assert now + {task.id} == ids + {task.id};
        assert AllMarked(now, DIRECT) + {Mark(task.id, DIRECT)} == AllMarked(ids + {task.id}, DIRECT);
        touched := true;
      }
    }
  }

  lemma SeedsStep(tasks: seq<Task>, changed: set<string>, i: nat)
    requires i < |tasks|
    ensures Seeds(tasks[..i + 1], changed) == Seeds(tasks[..i], changed) + if Touches(tasks[i], changed) then {tasks[i].id} else {}
  {
    var a, b := tasks[..i + 1], tasks[..i];
    assert a[i] == tasks[i] && forall j :: 0 <= j < i ==> a[j] == b[j];
  }

  /** Marks grow inside a saturated set. */
  ghost predicate Grown(ids: set<string>, marks: set<Mark>, ids': set<string>, marks': set<Mark>, world: set<string>, allowed: set<Mark>)
  {
    ids <= ids' <= world && marks <= marks' <= allowed
  }

  method MarkDependencies(r: Reload, tasks: seq<Task>, task: Task, ghost ids: set<string>, ghost marks: set<Mark>,
                          ghost world: set<string>, ghost allowed: set<Mark>)
    returns (ghost ids': set<string>, ghost marks': set<Mark>)
    requires r.Holds(ids, marks) && ids <= world && marks <= allowed && Spread(tasks, task, world, allowed)
    modifies r
    ensures r.Holds(ids', marks') && Grown(ids, marks, ids', marks', world, allowed)
    ensures forall d :: d in task.dependencyTasks ==> d in ids' && Mark(d, DEPENDENCY) in marks'
  {
    ids', marks' := ids, marks;
    for k := 0 to |task.dependencyTasks|
      invariant r.Holds(ids', marks') && Grown(ids, marks, ids', marks', world, allowed)
      invariant forall j :: 0 <= j < k ==> task.dependencyTasks[j] in ids' && Mark(task.dependencyTasks[j], DEPENDENCY) in marks'
    {
      var dependency := task.dependencyTasks[k];
      assert dependency in world && Mark(dependency, DEPENDENCY) in allowed;
      r.Add(dependency, DEPENDENCY, ids', marks');
      ids', marks' := ids' + {dependency}, marks' + {Mark(dependency, DEPENDENCY)};
    }
  }

  method MarkIfDependent(r: Reload, id: string, peer: Task, ghost ids: set<string>, ghost marks: set<Mark>,
                         ghost world: set<string>, ghost allowed: set<Mark>)
    returns (ghost ids': set<string>, ghost marks': set<Mark>)
    requires r.Holds(ids, marks) && ids <= world && marks <= allowed
    requires id in peer.dependencyTasks ==> peer.id in world && Mark(peer.id, DEPENDENT) in allowed
    modifies r
    ensures r.Holds(ids', marks') && Grown(ids, marks, ids', marks', world, allowed)
    ensures id in peer.dependencyTasks ==> peer.id in ids' && Mark(peer.id, DEPENDENT) in marks'
  {
    ids', marks' := ids, marks;
    for k := 0 to |peer.dependencyTasks|
      invariant r.Holds(ids', marks') && Grown(ids, marks, ids', marks', world, allowed)
      invariant forall j :: 0 <= j < k && peer.dependencyTasks[j] == id ==> peer.id in ids' && Mark(peer.id, DEPENDENT) in marks'
    {
      if peer.dependencyTasks[k] == id {
        r.Add(peer.id, DEPENDENT, ids', marks');
        ids', marks' := ids' + {peer.id}, marks' + {Mark(peer.id, DEPENDENT)};
      }
    }
  }

  method MarkDependents(r: Reload, tasks: seq<Task>, task: Task, ghost ids: set<string>, ghost marks: set<Mark>,
                        ghost world: set<string>, ghost allowed: set<Mark>)
    returns (ghost ids': set<string>, ghost marks': set<Mark>)
    requires r.Holds(ids, marks) && ids <= world && marks <= allowed && Spread(tasks, task, world, allowed)
    modifies r
    ensures r.Holds(ids', marks') && Grown(ids, marks, ids', marks', world, allowed)
    ensures forall p :: p in tasks && task.id in p.dependencyTasks ==> p.id in ids' && Mark(p.id, DEPENDENT) in marks'
  {
    ids', marks' := ids, marks;
    for n := 0 to |tasks|
      invariant r.Holds(ids', marks') && Grown(ids, marks, ids', marks', world, allowed)
      invariant forall j :: 0 <= j < n && task.id in tasks[j].dependencyTasks ==>
        tasks[j].id in ids' && Mark(tasks[j].id, DEPENDENT) in marks'
    {
      assert tasks[n] in tasks;
      ids', marks' := MarkIfDependent(r, task.id, tasks[n], ids', marks', world, allowed);
    }
  }

  lemma SpreadGrows(tasks: seq<Task>, task: Task, ids: set<string>, marks: set<Mark>, ids': set<string>, marks': set<Mark>)
    requires Spread(tasks, task, ids, marks) && ids <= ids' && marks <= marks'
    ensures Spread(tasks, task, ids', marks')
  {
  }

  /** One pass over the plan: every task marked when the pass began has spread. */
  method Pass(r: Reload, tasks: seq<Task>, ghost ids: set<string>, ghost marks: set<Mark>,
              ghost world: set<string>, ghost allowed: set<Mark>)
    returns (ghost ids': set<string>, ghost marks': set<Mark>)
    requires r.Holds(ids, marks) && ids <= world && marks <= allowed && Saturated(tasks, world, allowed)
    modifies r
    ensures r.Holds(ids', marks') && Grown(ids, marks, ids', marks', world, allowed)
    ensures forall t :: t in tasks && t.id in ids ==> Spread(tasks, t, ids', marks')
  {
    ids', marks' := ids, marks;
    for n := 0 to |tasks|
      invariant r.Holds(ids', marks') && Grown(ids, marks, ids', marks', world, allowed)
      invariant forall j :: 0 <= j < n && tasks[j].id in ids ==> Spread(tasks, tasks[j], ids', marks')
    {
      ghost var before, earlier := ids', marks';
      var found := r.HasReload(tasks[n].id, ids', marks');
      if found {
        assert Spread(tasks, tasks[n], world, allowed);
        ids', marks' := MarkDependencies(r, tasks, tasks[n], ids', marks', world, allowed);
        ids', marks' := MarkDependents(r, tasks, tasks[n], ids', marks', world, allowed);
        assert Spread(tasks, tasks[n], ids', marks');
      }
      forall j | 0 <= j < n && tasks[j].id in ids ensures Spread(tasks, tasks[j], ids', marks') {
        SpreadGrows(tasks, tasks[j], before, earlier, ids', marks');
      }
    }
  }

  /** Passes repeat until one adds no identifier. */
  method Fixpoint(r: Reload, tasks: seq<Task>, ghost ids: set<string>, ghost marks: set<Mark>,
                  ghost world: set<string>, ghost allowed: set<Mark>)
    returns (ghost ids': set<string>, ghost marks': set<Mark>)
    requires r.Holds(ids, marks) && ids <= world && marks <= allowed && Saturated(tasks, world, allowed)
    modifies r
    ensures r.Holds(ids', marks') && Grown(ids, marks, ids', marks', world, allowed)
    ensures Saturated(tasks, ids', marks')
  {
    ids', marks' := ids, marks;
    while true
      invariant r.Holds(ids', marks') && Grown(ids, marks, ids', marks', world, allowed)
      decreases world - ids'
    {
      ghost var start := ids';
      var before := r.Size(ids', marks');
      ids', marks' := Pass(r, tasks, ids', marks', world, allowed);
      var after := r.Size(ids', marks');
      if after == before {
        SubsetSameSize(start, ids');
        return;
      }
      assert start != ids';
    }
  }

  /** What the seeds reach is saturated by the marks of its neighbours. */
  lemma ReachedIsSaturated(tasks: seq<Task>, seeds: set<string>, marks: set<Mark>)
    requires NeighbourMarks(tasks, ReachedSet(tasks, seeds)) <= marks
    ensures seeds <= ReachedSet(tasks, seeds)
    ensures Saturated(tasks, ReachedSet(tasks, seeds), marks)
  {
    var world := ReachedSet(tasks, seeds);
    forall id | id in seeds ensures id in world { SeedReached(tasks, seeds, id); }
    forall t | t in tasks && t.id in world ensures Spread(tasks, t, world, marks) {
      var i :| 0 <= i < |tasks| && tasks[i] == t;
      forall d | d in t.dependencyTasks ensures d in world && Mark(d, DEPENDENCY) in marks {
        assert Neighbours(tasks, t.id, d);
        StepReached(tasks, seeds, t.id, d);
        assert Mark(d, DEPENDENCY) in NeighbourMarks(tasks, world);
      }
      forall p | p in tasks && t.id in p.dependencyTasks ensures p.id in world && Mark(p.id, DEPENDENT) in marks {
        var j :| 0 <= j < |tasks| && tasks[j] == p;
        assert Neighbours(tasks, t.id, p.id);
        StepReached(tasks, seeds, t.id, p.id);
        assert Mark(tasks[j].id, DEPENDENT) in NeighbourMarks(tasks, world);
      }
    }
  }

  /** A saturated set inside what the seeds reach, with the seeds in it, is all of it. */
  lemma SaturatedIsReached(tasks: seq<Task>, seeds: set<string>, ids: set<string>, marks: set<Mark>)
    requires Saturated(tasks, ids, marks) && seeds <= ids <= ReachedSet(tasks, seeds)
    ensures ids == ReachedSet(tasks, seeds) && NeighbourMarks(tasks, ids) <= marks
  {
    forall a, b | a in ids && Neighbours(tasks, a, b) ensures b in ids {
      if t :| t in tasks && t.id == a && b in t.dependencyTasks {
        assert Spread(tasks, t, ids, marks);
      } else {
        var s :| s in tasks && s.id == a;
        assert Spread(tasks, s, ids, marks);
      }
    }
    forall id | id in ReachedSet(tasks, seeds) ensures id in ids {
      ClosedHoldsReached(tasks, seeds, ids, id);
    }
    forall i | 0 <= i < |tasks| && tasks[i].id in ids ensures Spread(tasks, tasks[i], ids, marks) {
      assert tasks[i] in tasks;
    }
  }

  /** The tasks by identifier, then the contract types of the marked ones. */
  method ReloadedTypes(r: Reload, tasks: seq<Task>, ghost ids: set<string>, ghost marks: set<Mark>) returns (types: set<string>)
    requires r.Holds(ids, marks)
    ensures types == TypesOfReloaded(tasks, ids)
  {
    var byID := CollectTasks(tasks);
    types := {};
    var rest := byID.Keys;
    while rest != {}
      invariant rest <= byID.Keys
      invariant types == set id, c | id in byID.Keys - rest && id in ids && c in byID[id].contractTypes :: c
      decreases |rest|
    {
      var id :| id in rest;
      var found := r.HasReload(id, ids, marks);
      if found {
        types := types + set c | c in byID[id].contractTypes;
      }
      rest := rest - {id};
    }
  }

  /** The final pass over shared contract types. */
  method MarkConsumers(r: Reload, tasks: seq<Task>, ghost ids: set<string>, ghost marks: set<Mark>)
    requires r.Holds(ids, marks)
    modifies r
    ensures r.Holds(ids + Consumers(tasks, ids), marks + AllMarked(Consumers(tasks, ids), SHARED))
  {
    var types := ReloadedTypes(r, tasks, ids, marks);
    ghost var more := {};
    for n := 0 to |tasks|
      invariant more == ConsumersAmong(tasks, types, n)
      invariant r.Holds(ids + more, marks + AllMarked(more, SHARED))
    {
      more := MarkConsumer(r, tasks[n], types, ids, marks, more);
      ConsumersStep(tasks, types, n);
    }
    ConsumersByType(tasks, ids);
  }

  method MarkConsumer(r: Reload, task: Task, types: set<string>, ghost ids: set<string>, ghost marks: set<Mark>, ghost more: set<string>)
    returns (ghost more': set<string>)
    requires r.Holds(ids + more, marks + AllMarked(more, SHARED))
    modifies r
    ensures more' == more + if HasType(task, types) then {task.id} else {}
    ensures r.Holds(ids + more', marks + AllMarked(more', SHARED))
  {
    more' := more;
    for k := 0 to |task.contractTypes|
      invariant more' == more + if exists j :: 0 <= j < k && task.contractTypes[j] in types then {task.id} else {}
      invariant r.Holds(ids + more', marks + AllMarked(more', SHARED))
    {
      if task.contractTypes[k] in types {
        r.Add(task.id, SHARED, ids + more', marks + AllMarked(more', SHARED));
        OneMore(ids, marks, more', task.id);
        more' := more' + {task.id};
      }
    }
  }

  lemma OneMore(ids: set<string>, marks: set<Mark>, more: set<string>, id: string)
    ensures ids + more + {id} == ids + (more + {id})
    ensures marks + AllMarked(more, SHARED) + {Mark(id, SHARED)} == marks + AllMarked(more + {id}, SHARED)
  {
  }

  ghost predicate HasType(task: Task, types: set<string>)
  {
    exists j :: 0 <= j < |task.contractTypes| && task.contractTypes[j] in types
  }

  ghost function TypesOfReloaded(tasks: seq<Task>, ids: set<string>): set<string>
  {
    var byID := TaskByID(tasks);
    set id, c | id in byID.Keys && id in ids && c in byID[id].contractTypes :: c
  }

  ghost function ConsumersAmong(tasks: seq<Task>, types: set<string>, n: nat): set<string>
    requires n <= |tasks|
  {
    set i | 0 <= i < n && HasType(tasks[i], types) :: tasks[i].id
  }

  lemma ConsumersStep(tasks: seq<Task>, types: set<string>, n: nat)
    requires n < |tasks|
    ensures ConsumersAmong(tasks, types, n + 1) ==
      ConsumersAmong(tasks, types, n) + if HasType(tasks[n], types) then {tasks[n].id} else {}
  {
  }

  lemma ConsumersByType(tasks: seq<Task>, ids: set<string>)
    ensures ConsumersAmong(tasks, TypesOfReloaded(tasks, ids), |tasks|) == Consumers(tasks, ids)
  {
    var byID, types := TaskByID(tasks), TypesOfReloaded(tasks, ids);
    forall t ensures HasType(t, types) <==> SharesType(tasks, ids, t) {
      if HasType(t, types) {
        var j :| 0 <= j < |t.contractTypes| && t.contractTypes[j] in types;
        var id :| id in byID && id in ids && t.contractTypes[j] in byID[id].contractTypes;
        var k :| 0 <= k < |byID[id].contractTypes| && byID[id].contractTypes[k] == t.contractTypes[j];
        assert Overlap(t.contractTypes, byID[id].contractTypes);
      }
      if SharesType(tasks, ids, t) {
        var id :| id in ids && id in byID && Overlap(t.contractTypes, byID[id].contractTypes);
      }
    }
  }

  /** The identifiers to reload on any plan. */
  ghost function ToReload(tasks: seq<Task>, changed: set<string>): set<string>
  {
    var reached := ReachedSet(tasks, Seeds(tasks, changed));
    reached + Consumers(tasks, reached)
  }

  /** Why: the exact marks on any plan. */
  ghost function ReloadMarks(tasks: seq<Task>, changed: set<string>): set<Mark>
  {
    var seeds := Seeds(tasks, changed);
    var reached := ReachedSet(tasks, seeds);
    AllMarked(seeds, DIRECT) + NeighbourMarks(tasks, reached) + AllMarked(Consumers(tasks, reached), SHARED)
  }

  function TaskIDs(tasks: seq<Task>): set<string>
  {
    set i | 0 <= i < |tasks| :: tasks[i].id
  }

  method MarkAll(r: Reload, tasks: seq<Task>)
    requires r.Holds({}, {})
    modifies r
    ensures r.Holds(TaskIDs(tasks), AllMarked(TaskIDs(tasks), SEMANTIC))
  {
    ghost var ids := {};
    for n := 0 to |tasks|
      invariant ids == set i | 0 <= i < n :: tasks[i].id
      invariant r.Holds(ids, AllMarked(ids, SEMANTIC))
    {
      r.Add(tasks[n].id, SEMANTIC, ids, AllMarked(ids, SEMANTIC));
      assert AllMarked(ids, SEMANTIC) + {Mark(tasks[n].id, SEMANTIC)} == AllMarked(ids + {tasks[n].id}, SEMANTIC);
      ids := ids + {tasks[n].id};
    }
  }

  /** From the seeds, the fixpoint marks exactly what they reach and the neighbours of all that. */
  method Propagate(r: Reload, tasks: seq<Task>, ghost seeds: set<string>, ghost direct: set<Mark>)
    requires r.Holds(seeds, direct)
    modifies r
    ensures var reached := ReachedSet(tasks, seeds);
      r.Holds(reached, direct + NeighbourMarks(tasks, reached))
  {
    ghost var world := ReachedSet(tasks, seeds);
    ghost var allowed := direct + NeighbourMarks(tasks, world);
    ReachedIsSaturated(tasks, seeds, allowed);
    ghost var ids, marks := Fixpoint(r, tasks, seeds, direct, world, allowed);
    SaturatedIsReached(tasks, seeds, ids, marks);
    assert marks == allowed;
  }

  /** The branch for changed paths. */
  method ReloadChanged(r: Reload, tasks: seq<Task>, changed: set<string>)
    requires r.Holds({}, {})
    modifies r
    ensures r.Holds(ToReload(tasks, changed), ReloadMarks(tasks, changed))
  {
    MarkDirect(r, tasks, changed);
    ghost var seeds := Seeds(tasks, changed);
    Propagate(r, tasks, seeds, AllMarked(seeds, DIRECT));
    ghost var reached := ReachedSet(tasks, seeds);
    MarkConsumers(r, tasks, reached, AllMarked(seeds, DIRECT) + NeighbourMarks(tasks, reached));
  }

  method ComputeInvalidation(tasks: seq<Task>, changedPaths: seq<string>, semanticInputsChanged: bool) returns (r: Reload)
    ensures fresh(r)
    ensures semanticInputsChanged ==>
      && r.mustReload == Listing(TaskIDs(tasks))
      && r.reasons == ReasonLists(TaskIDs(tasks), AllMarked(TaskIDs(tasks), SEMANTIC))
    ensures !semanticInputsChanged ==>
      && r.mustReload == Listing(ToReload(tasks, Elements(changedPaths)))
      && r.reasons == ReasonLists(ToReload(tasks, Elements(changedPaths)), ReloadMarks(tasks, Elements(changedPaths)))
  {
    r := new Reload();
    if semanticInputsChanged {
      MarkAll(r, tasks);
      r.Finalize(TaskIDs(tasks), AllMarked(TaskIDs(tasks), SEMANTIC));
    } else {
      var changed := set p | p in changedPaths;
      assert changed == Elements(changedPaths);
      ReloadChanged(r, tasks, changed);
      r.Finalize(ToReload(tasks, changed), ReloadMarks(tasks, changed));
    }
  }
}
