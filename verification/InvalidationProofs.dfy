/**
 On a plan whose dependencies were linked by contract type, a change reloads exactly the
 connected components, under sharing a contract type, of the tasks that hold a changed path.
 */
module InvalidationProofs {
  import opened Ordering
  import opened Planner
  import opened PlannerProofs
  import opened Invalidation

  /** A task depends on exactly the earlier tasks it shares a contract type with. */
  ghost predicate LinkedByTypes(tasks: seq<Task>)
  {
    forall i, d :: 0 <= i < |tasks| ==> (d in tasks[i].dependencyTasks <==> EarlierPeer(tasks, i, d))
  }

  ghost predicate EarlierPeer(tasks: seq<Task>, i: nat, d: string)
    requires i < |tasks|
  {
    exists j :: 0 <= j < i && tasks[j].id == d && exists t :: t in tasks[i].contractTypes && t in tasks[j].contractTypes
  }

  lemma {:induction false} EarlierPeersMembers(tasks: seq<Task>, i: nat, n: nat, d: string)
    requires n <= i < |tasks|
    ensures d in EarlierPeers(tasks, i, n) <==>
      exists j :: 0 <= j < n && Overlap(tasks[i].contractTypes, tasks[j].contractTypes) && tasks[j].id == d
  {
    if n > 0 {
      EarlierPeersMembers(tasks, i, n - 1, d);
    }
  }

  lemma LinkingLinksByTypes(was: seq<Task>)
    requires forall i :: 0 <= i < |was| ==> was[i].dependencyTasks == []
    ensures LinkedByTypes(LinkedTasks(was))
  {
    var tasks := LinkedTasks(was);
    forall i, d | 0 <= i < |tasks| ensures d in tasks[i].dependencyTasks <==> EarlierPeer(tasks, i, d) {
      var peers := EarlierPeers(was, i, i);
      assert was[i].dependencyTasks + peers == peers;
      SortedStringsElements(peers);
      EarlierPeersMembers(was, i, i, d);
      assert forall j :: 0 <= j < i ==> tasks[j].id == was[j].id && tasks[j].contractTypes == was[j].contractTypes;
    }
  }

  // ----- Components -----

  ghost predicate Adjacent(tasks: seq<Task>, i: int, j: int)
  {
    && 0 <= i < |tasks| && 0 <= j < |tasks|
    && (i == j || exists t :: t in tasks[i].contractTypes && t in tasks[j].contractTypes)
  }

  ghost predicate SharingPath(tasks: seq<Task>, walk: seq<nat>)
  {
    walk != [] && forall k :: 0 <= k < |walk| - 1 ==> Adjacent(tasks, walk[k], walk[k + 1])
  }

  ghost predicate Connected(tasks: seq<Task>, i: nat, j: nat)
  {
    exists walk :: SharingPath(tasks, walk) && walk[0] == i && walk[|walk| - 1] == j
  }

  lemma ConnectedStep(tasks: seq<Task>, i: nat, j: nat, k: nat)
    requires Connected(tasks, i, j) && Adjacent(tasks, j, k)
    ensures Connected(tasks, i, k)
  {
    var walk :| SharingPath(tasks, walk) && walk[0] == i && walk[|walk| - 1] == j;
    assert SharingPath(tasks, walk + [k]);
  }

  ghost predicate HoldsChanged(t: Task, changed: set<string>)
  {
    exists k :: 0 <= k < |t.paths| && t.paths[k].path in changed
  }

  /** The task of this identifier lies in the component of a task that holds a changed path. */
  ghost predicate InChangedComponent(tasks: seq<Task>, changed: set<string>, id: string)
  {
    exists s, i :: 0 <= s < |tasks| && 0 <= i < |tasks| && HoldsChanged(tasks[s], changed) && Connected(tasks, s, i) && tasks[i].id == id
  }

  ghost predicate DistinctIDs(tasks: seq<Task>)
  {
    forall i, j :: 0 <= i < j < |tasks| ==> tasks[i].id != tasks[j].id
  }

  lemma SameID(tasks: seq<Task>, i: nat, j: nat)
    requires DistinctIDs(tasks) && i < |tasks| && j < |tasks| && tasks[i].id == tasks[j].id
    ensures i == j
  {
  }

  lemma PeerOf(tasks: seq<Task>, i: nat, d: string) returns (j: nat)
    requires i < |tasks| && EarlierPeer(tasks, i, d)
    ensures j < i && tasks[j].id == d && Adjacent(tasks, i, j) && Adjacent(tasks, j, i)
  {
    j :| 0 <= j < i && tasks[j].id == d && exists t :: t in tasks[i].contractTypes && t in tasks[j].contractTypes;
  }

  /** On such a plan the dependency neighbours of a task are the tasks that share a type with it. */
  lemma NeighboursShareTypes(tasks: seq<Task>, i: nat, b: string) returns (j: nat)
    requires LinkedByTypes(tasks) && DistinctIDs(tasks)
    requires i < |tasks| && Neighbours(tasks, tasks[i].id, b)
    ensures Adjacent(tasks, i, j) && tasks[j].id == b
  {
    var a := tasks[i].id;
    if t :| t in tasks && t.id == a && b in t.dependencyTasks {
      var k :| 0 <= k < |tasks| && tasks[k] == t;
      SameID(tasks, i, k);
      j := PeerOf(tasks, i, b);
    } else {
      var t :| t in tasks && t.id == b && a in t.dependencyTasks;
      j :| 0 <= j < |tasks| && tasks[j] == t;
      var k := PeerOf(tasks, j, a);
      SameID(tasks, i, k);
    }
  }

  lemma TypesMakeNeighbours(tasks: seq<Task>, i: nat, j: nat)
    requires LinkedByTypes(tasks) && Adjacent(tasks, i, j) && i != j
    ensures Neighbours(tasks, tasks[i].id, tasks[j].id)
  {
    assert tasks[i] in tasks && tasks[j] in tasks;
    if j < i {
      assert EarlierPeer(tasks, i, tasks[j].id);
    } else {
      assert Overlap(tasks[j].contractTypes, tasks[i].contractTypes);
      assert EarlierPeer(tasks, j, tasks[i].id);
    }
  }

  lemma {:induction false} ChainStaysInComponents(tasks: seq<Task>, changed: set<string>, chain: seq<string>)
    requires LinkedByTypes(tasks) && DistinctIDs(tasks)
    requires IsChain(tasks, chain) && chain[0] in Seeds(tasks, changed)
    ensures InChangedComponent(tasks, changed, chain[|chain| - 1])
    decreases |chain|
  {
    if |chain| == 1 {
      var s :| 0 <= s < |tasks| && Touches(tasks[s], changed) && tasks[s].id == chain[0];
      assert SharingPath(tasks, [s]);
      assert Connected(tasks, s, s);
    } else {
      var init, n := chain[..|chain| - 1], |chain| - 2;
      ChainStaysInComponents(tasks, changed, init);
      var s, i :| 0 <= s < |tasks| && 0 <= i < |tasks| && HoldsChanged(tasks[s], changed) && Connected(tasks, s, i) && tasks[i].id == chain[n];
      assert Neighbours(tasks, chain[n], chain[n + 1]);
      var j := NeighboursShareTypes(tasks, i, chain[n + 1]);
      ConnectedStep(tasks, s, i, j);
    }
  }

  lemma AdjacentIsReached(tasks: seq<Task>, seeds: set<string>, i: nat, j: nat)
    requires LinkedByTypes(tasks) && Adjacent(tasks, i, j) && Reached(tasks, seeds, tasks[i].id)
    ensures Reached(tasks, seeds, tasks[j].id)
  {
    if i != j {
      TypesMakeNeighbours(tasks, i, j);
      StepReached(tasks, seeds, tasks[i].id, tasks[j].id);
    }
  }

  lemma {:induction false} WalkIsReached(tasks: seq<Task>, changed: set<string>, walk: seq<nat>)
    requires LinkedByTypes(tasks) && SharingPath(tasks, walk) && walk[0] < |tasks| && Touches(tasks[walk[0]], changed)
    ensures walk[|walk| - 1] < |tasks| && Reached(tasks, Seeds(tasks, changed), tasks[walk[|walk| - 1]].id)
    decreases |walk|
  {
    if |walk| == 1 {
      assert tasks[walk[0]].id in Seeds(tasks, changed);
      SeedReached(tasks, Seeds(tasks, changed), tasks[walk[0]].id);
    } else {
      var n := |walk| - 2;
      assert SharingPath(tasks, walk[..n + 1]);
      WalkIsReached(tasks, changed, walk[..n + 1]);
      assert Adjacent(tasks, walk[n], walk[n + 1]);
      AdjacentIsReached(tasks, Seeds(tasks, changed), walk[n], walk[n + 1]);
    }
  }

  lemma ReachedIsComponents(tasks: seq<Task>, changed: set<string>, id: string)
    requires LinkedByTypes(tasks) && DistinctIDs(tasks)
    ensures id in ReachedSet(tasks, Seeds(tasks, changed)) <==> InChangedComponent(tasks, changed, id)
  {
    var seeds := Seeds(tasks, changed);
    if Reached(tasks, seeds, id) {
      var chain :| IsChain(tasks, chain) && chain[0] in seeds && chain[|chain| - 1] == id;
      ChainStaysInComponents(tasks, changed, chain);
    }
    if InChangedComponent(tasks, changed, id) {
      var s, i :| 0 <= s < |tasks| && 0 <= i < |tasks| && HoldsChanged(tasks[s], changed) && Connected(tasks, s, i) && tasks[i].id == id;
      var walk :| SharingPath(tasks, walk) && walk[0] == s && walk[|walk| - 1] == i;
      WalkIsReached(tasks, changed, walk);
      assert id in Universe(tasks);
    }
  }

  /** The final pass over shared contract types adds no task. */
  lemma ConsumersAlreadyReached(tasks: seq<Task>, changed: set<string>)
    requires LinkedByTypes(tasks) && DistinctIDs(tasks)
    ensures var reached := ReachedSet(tasks, Seeds(tasks, changed));
      Consumers(tasks, reached) <= reached
  {
    var seeds := Seeds(tasks, changed);
    var reached := ReachedSet(tasks, seeds);
    forall i | 0 <= i < |tasks| && SharesType(tasks, reached, tasks[i]) ensures tasks[i].id in reached {
      var id :| id in reached && id in TaskByID(tasks) && Overlap(tasks[i].contractTypes, TaskByID(tasks)[id].contractTypes);
      var k := TaskByIDMember(tasks, id);
      assert Overlap(tasks[k].contractTypes, tasks[i].contractTypes);
      AdjacentIsReached(tasks, seeds, k, i);
    }
  }

  /** Exactly the components of the changed tasks are reloaded, on any list linked by types. */
  lemma ReloadsExactlyComponents(tasks: seq<Task>, changed: set<string>, id: string)
    requires LinkedByTypes(tasks) && DistinctIDs(tasks)
    ensures id in ToReload(tasks, changed) <==> InChangedComponent(tasks, changed, id)
  {
    ConsumersAlreadyReached(tasks, changed);
    ReachedIsComponents(tasks, changed, id);
  }

  /** The same for every plan that `Build` makes of entries with distinct (scope, path) pairs. */
  lemma PlanReloadsExactlyComponents(digest: TaskDigest, snapshotID: string, entries: seq<Entry>, x: Index, limits: Limits,
                                     groups: seq<seq<Entry>>, plan: Plan, changed: set<string>, id: string)
    requires IsPlan(digest, snapshotID, entries, x, limits, groups, plan)
    requires TasksDoNotCollide(digest, plan.tasks) && DistinctKeys(entries)
    ensures id in ToReload(plan.tasks, changed) <==> InChangedComponent(plan.tasks, changed, id)
  {
    PlanIsLinkedByTypes(digest, snapshotID, x, groups, limits);
    forall i, j | 0 <= i < j < |plan.tasks| ensures plan.tasks[i].id != plan.tasks[j].id {
      TaskIDsDistinct(digest, snapshotID, entries, x, limits, groups, plan, i, j);
    }
    ReloadsExactlyComponents(plan.tasks, changed, id);
  }

  lemma PlanIsLinkedByTypes(digest: TaskDigest, snapshotID: string, x: Index, groups: seq<seq<Entry>>, limits: Limits)
    ensures LinkedByTypes(PlanTasks(digest, snapshotID, x, groups, limits))
  {
    LinkingLinksByTypes(TasksOf(digest, snapshotID, x, AllSlices(groups, limits), limits.maxPacketBytes));
  }
}
