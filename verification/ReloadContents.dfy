/**
 What the answer of the invalidation says, on any list of tasks: which identifiers are
 reloaded and which reasons are recorded for each.
 */
module ReloadContents {
  import opened Ordering
  import opened Planner
  import opened Invalidation
  import opened InvalidationProofs

  /** `b` is a dependency of a task named `a`, or a task named `b` depends on a task named `a`. */
  ghost predicate NextTo(tasks: seq<Task>, a: string, b: string)
  {
    || (exists i :: 0 <= i < |tasks| && tasks[i].id == a && b in tasks[i].dependencyTasks)
    || (exists i, j :: 0 <= i < |tasks| && 0 <= j < |tasks| && tasks[i].id == a && tasks[j].id == b && a in tasks[j].dependencyTasks)
  }

  ghost predicate Changed(tasks: seq<Task>, changed: set<string>, id: string)
  {
    exists i :: 0 <= i < |tasks| && tasks[i].id == id && HoldsChanged(tasks[i], changed)
  }

  ghost predicate Links(tasks: seq<Task>, chain: seq<string>)
  {
    chain != [] && forall k :: 0 <= k < |chain| - 1 ==> NextTo(tasks, chain[k], chain[k + 1])
  }

  /** Dependencies lead from a task that holds a changed path to this identifier, in either direction at each step. */
  ghost predicate SpreadsTo(tasks: seq<Task>, changed: set<string>, id: string)
  {
    exists chain :: Links(tasks, chain) && Changed(tasks, changed, chain[0]) && chain[|chain| - 1] == id
  }

  ghost predicate SharesTypeWith(tasks: seq<Task>, changed: set<string>, i: int, j: int)
  {
    && 0 <= i < |tasks| && 0 <= j < |tasks| && SpreadsTo(tasks, changed, tasks[j].id)
    && (forall k :: j < k < |tasks| ==> tasks[k].id != tasks[j].id)
    && exists t :: t in tasks[i].contractTypes && t in tasks[j].contractTypes
  }

  /** A task of this identifier shares a contract type with the last task of an identifier that the change spreads to. */
  ghost predicate Consumes(tasks: seq<Task>, changed: set<string>, id: string)
  {
    exists i, j :: SharesTypeWith(tasks, changed, i, j) && tasks[i].id == id
  }

  ghost predicate Applies(tasks: seq<Task>, changed: set<string>, id: string, reason: string)
  {
    || (reason == "direct path changed" && Changed(tasks, changed, id))
    || (reason == "dependency neighbor changed" &&
        exists i :: 0 <= i < |tasks| && SpreadsTo(tasks, changed, tasks[i].id) && id in tasks[i].dependencyTasks)
    || (reason == "dependent neighbor changed" &&
        exists i, j :: 0 <= i < |tasks| && 0 <= j < |tasks| && SpreadsTo(tasks, changed, tasks[i].id)
          && tasks[j].id == id && tasks[i].id in tasks[j].dependencyTasks)
    || (reason == "shared contract consumer changed" && Consumes(tasks, changed, id))
  }

  lemma NeighboursAreNext(tasks: seq<Task>, a: string, b: string)
    ensures Neighbours(tasks, a, b) <==> NextTo(tasks, a, b)
  {
    if NextTo(tasks, a, b) {
      if i :| 0 <= i < |tasks| && tasks[i].id == a && b in tasks[i].dependencyTasks {
        assert tasks[i] in tasks;
      } else {
        var i, j :| 0 <= i < |tasks| && 0 <= j < |tasks| && tasks[i].id == a && tasks[j].id == b && a in tasks[j].dependencyTasks;
        assert tasks[i] in tasks && tasks[j] in tasks;
      }
    }
  }

  lemma SeedsAreChanged(tasks: seq<Task>, changed: set<string>, id: string)
    ensures id in Seeds(tasks, changed) <==> Changed(tasks, changed, id)
  {
  }

  lemma ChainsAreLinks(tasks: seq<Task>, chain: seq<string>)
    ensures IsChain(tasks, chain) <==> Links(tasks, chain)
  {
    if chain != [] {
      forall k | 0 <= k < |chain| - 1 ensures Neighbours(tasks, chain[k], chain[k + 1]) <==> NextTo(tasks, chain[k], chain[k + 1]) {
        NeighboursAreNext(tasks, chain[k], chain[k + 1]);
      }
    }
  }

  lemma ReachedIsSpread(tasks: seq<Task>, changed: set<string>, id: string)
    ensures id in ReachedSet(tasks, Seeds(tasks, changed)) <==> SpreadsTo(tasks, changed, id)
  {
    var seeds := Seeds(tasks, changed);
    if chain :| IsChain(tasks, chain) && chain[0] in seeds && chain[|chain| - 1] == id {
      ChainsAreLinks(tasks, chain);
      SeedsAreChanged(tasks, changed, chain[0]);
    }
    if chain :| Links(tasks, chain) && Changed(tasks, changed, chain[0]) && chain[|chain| - 1] == id {
      ChainsAreLinks(tasks, chain);
      SeedsAreChanged(tasks, changed, chain[0]);
      LastLinkIsKnown(tasks, chain);
    }
  }

  /** A chain ends in its first identifier or in one the tasks name. */
  lemma LastLinkIsKnown(tasks: seq<Task>, chain: seq<string>)
    requires IsChain(tasks, chain)
    ensures |chain| == 1 || chain[|chain| - 1] in Universe(tasks)
  {
    if |chain| > 1 {
      var a, b := chain[|chain| - 2], chain[|chain| - 1];
      assert Neighbours(tasks, a, b);
      NeighboursAreNext(tasks, a, b);
    }
  }

  lemma {:induction false} TaskByIDIsLast(tasks: seq<Task>, id: string) returns (k: nat)
    requires id in TaskByID(tasks)
    ensures k < |tasks| && tasks[k].id == id && tasks[k] == TaskByID(tasks)[id]
    ensures forall l :: k < l < |tasks| ==> tasks[l].id != id
  {
    var last := |tasks| - 1;
    if tasks[last].id == id {
      k := last;
    } else {
      k := TaskByIDIsLast(tasks[..last], id);
    }
  }

  lemma {:induction false} LastIsTaskByID(tasks: seq<Task>, k: nat)
    requires k < |tasks| && forall l :: k < l < |tasks| ==> tasks[l].id != tasks[k].id
    ensures tasks[k].id in TaskByID(tasks) && TaskByID(tasks)[tasks[k].id] == tasks[k]
  {
    var last := |tasks| - 1;
    if k < last {
      assert tasks[last].id != tasks[k].id;
      LastIsTaskByID(tasks[..last], k);
    }
  }

  lemma ConsumerShares(tasks: seq<Task>, changed: set<string>, i: nat) returns (j: nat)
    requires i < |tasks| && SharesType(tasks, ReachedSet(tasks, Seeds(tasks, changed)), tasks[i])
    ensures SharesTypeWith(tasks, changed, i, j)
  {
    var ids := ReachedSet(tasks, Seeds(tasks, changed));
    var a :| a in ids && a in TaskByID(tasks) && Overlap(tasks[i].contractTypes, TaskByID(tasks)[a].contractTypes);
    j := TaskByIDIsLast(tasks, a);
    ReachedIsSpread(tasks, changed, a);
  }

  lemma SharingConsumes(tasks: seq<Task>, changed: set<string>, i: nat, j: nat)
    requires SharesTypeWith(tasks, changed, i, j)
    ensures SharesType(tasks, ReachedSet(tasks, Seeds(tasks, changed)), tasks[i])
  {
    LastIsTaskByID(tasks, j);
    ReachedIsSpread(tasks, changed, tasks[j].id);
    assert Overlap(tasks[i].contractTypes, TaskByID(tasks)[tasks[j].id].contractTypes);
  }

  lemma ConsumersConsume(tasks: seq<Task>, changed: set<string>, id: string)
    ensures id in Consumers(tasks, ReachedSet(tasks, Seeds(tasks, changed))) <==> Consumes(tasks, changed, id)
  {
    var ids := ReachedSet(tasks, Seeds(tasks, changed));
    if id in Consumers(tasks, ids) {
      var i :| 0 <= i < |tasks| && SharesType(tasks, ids, tasks[i]) && tasks[i].id == id;
      var j := ConsumerShares(tasks, changed, i);
    }
    if Consumes(tasks, changed, id) {
      var i, j :| SharesTypeWith(tasks, changed, i, j) && tasks[i].id == id;
      SharingConsumes(tasks, changed, i, j);
    }
  }

  lemma MarksApply(tasks: seq<Task>, changed: set<string>, id: string, reason: string)
    ensures Mark(id, reason) in ReloadMarks(tasks, changed) <==> Applies(tasks, changed, id, reason)
  {
    var seeds := Seeds(tasks, changed);
    var reached := ReachedSet(tasks, seeds);
    SeedsAreChanged(tasks, changed, id);
    ConsumersConsume(tasks, changed, id);
    MarksSay(tasks, seeds, reached, Consumers(tasks, reached), id, reason);
    forall a ensures a in reached <==> SpreadsTo(tasks, changed, a) { ReachedIsSpread(tasks, changed, a); }
  }

  lemma MarksSay(tasks: seq<Task>, seeds: set<string>, ids: set<string>, consumers: set<string>, id: string, reason: string)
    ensures Mark(id, reason) in AllMarked(seeds, DIRECT) + NeighbourMarks(tasks, ids) + AllMarked(consumers, SHARED) <==>
      || (reason == "direct path changed" && id in seeds)
      || (reason == "dependency neighbor changed" && exists i :: 0 <= i < |tasks| && tasks[i].id in ids && id in tasks[i].dependencyTasks)
      || (reason == "dependent neighbor changed" && (exists i, j :: 0 <= i < |tasks| && 0 <= j < |tasks| && tasks[i].id in ids
                                                                  && tasks[j].id == id && tasks[i].id in tasks[j].dependencyTasks))
      || (reason == "shared contract consumer changed" && id in consumers)
  {
  }

  /** The sorted answer: whom the change spreads to and their consumers, each with exactly the reasons that apply. */
  lemma AnswerSays(tasks: seq<Task>, changed: set<string>, mustReload: seq<string>, reasons: map<string, seq<string>>)
    requires mustReload == Listing(ToReload(tasks, changed))
    requires reasons == ReasonLists(ToReload(tasks, changed), ReloadMarks(tasks, changed))
    ensures SortedBy(StringLE, mustReload) && Distinct(mustReload)
    ensures forall id :: id in mustReload <==> SpreadsTo(tasks, changed, id) || Consumes(tasks, changed, id)
    ensures forall id :: id in reasons <==> id in mustReload
    ensures forall id :: id in reasons ==> SortedBy(StringLE, reasons[id]) && Distinct(reasons[id])
    ensures forall id, reason :: id in reasons ==> (reason in reasons[id] <==> Applies(tasks, changed, id, reason))
  {
    var ids, marks := ToReload(tasks, changed), ReloadMarks(tasks, changed);
    ListingOf(ids);
    ListingMembers(ids);
    forall id ensures id in ids <==> SpreadsTo(tasks, changed, id) || Consumes(tasks, changed, id) {
      ReachedIsSpread(tasks, changed, id);
      ConsumersConsume(tasks, changed, id);
    }
    forall id | id in reasons ensures SortedBy(StringLE, reasons[id]) && Distinct(reasons[id]) {
      ListingOf(ReasonsFor(marks, id));
    }
    forall id, reason | id in reasons ensures reason in reasons[id] <==> Applies(tasks, changed, id, reason) {
      ListingMembers(ReasonsFor(marks, id));
      MarksApply(tasks, changed, id, reason);
      assert reason in ReasonsFor(marks, id) <==> Mark(id, reason) in marks;
    }
  }

  /** When the semantic inputs changed every task is reloaded, for that one reason. */
  lemma SemanticAnswerSays(tasks: seq<Task>, mustReload: seq<string>, reasons: map<string, seq<string>>)
    requires mustReload == Listing(TaskIDs(tasks))
    requires reasons == ReasonLists(TaskIDs(tasks), AllMarked(TaskIDs(tasks), SEMANTIC))
    ensures SortedBy(StringLE, mustReload) && Distinct(mustReload)
    ensures forall id :: id in mustReload <==> exists i :: 0 <= i < |tasks| && tasks[i].id == id
    ensures forall id :: id in reasons <==> id in mustReload
    ensures forall id :: id in reasons ==> reasons[id] == ["semantic input changed"]
  {
    var ids := TaskIDs(tasks);
    var marks := AllMarked(ids, SEMANTIC);
    ListingOf(ids);
    ListingMembers(ids);
    forall id | id in reasons ensures reasons[id] == ["semantic input changed"] {
      var one := ReasonsFor(marks, id);
      assert Mark(id, SEMANTIC) in marks;
      assert one == {"semantic input changed"};
      SingleListing("semantic input changed");
    }
  }

  lemma SingleListing(x: string)
    ensures Listing({x}) == [x]
  {
    ListingUnique({x}, [x]);
  }
}
