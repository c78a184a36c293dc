/** What every plan guarantees: a partition of the entries, paths kept whole, greedy limits, one answer for any input order. */
module PlannerProofs {
  import opened Ordering
  import opened Planner
  import opened Sequences

  // ----- Nothing lost, nothing duplicated -----

  function Flatten<T>(lists: seq<seq<T>>): seq<T>
  {
    if lists == [] then [] else Flatten(lists[..|lists| - 1]) + lists[|lists| - 1]
  }

  lemma {:induction false} FlattenConcat<T>(a: seq<seq<T>>, b: seq<seq<T>>)
    ensures Flatten(a + b) == Flatten(a) + Flatten(b)
    decreases |b|
  {
    if b == [] {
      assert a + b == a;
    } else {
      var last := |b| - 1;
      FlattenConcat(a, b[..last]);
      assert (a + b)[..|a + b| - 1] == a + b[..last];
      assert (a + b)[|a + b| - 1] == b[last];
    }
  }

  lemma FlattenCons<T>(first: seq<T>, rest: seq<seq<T>>)
    ensures Flatten([first] + rest) == first + Flatten(rest)
  {
    FlattenConcat([first], rest);
    assert [first][..0] == [];
  }

  lemma CutJoins<T>(items: seq<T>, n: nat)
    requires n <= |items|
    ensures items[..n] + items[n..] == items
  {
  }

  lemma {:induction false} SlicesFlatten(items: seq<Entry>, limits: Limits)
    ensures Flatten(Slices(items, limits)) == items
    decreases |items|
  {
    if items != [] {
      var n := SliceCount(items, limits);
      SlicesFlatten(items[n..], limits);
      FlattenCons(items[..n], Slices(items[n..], limits));
      CutJoins(items, n);
    }
  }

  lemma {:induction false} SlicesNonEmpty(items: seq<Entry>, limits: Limits)
    ensures forall i :: 0 <= i < |Slices(items, limits)| ==> Slices(items, limits)[i] != []
    decreases |items|
  {
    if items != [] {
      SlicesNonEmpty(items[SliceCount(items, limits)..], limits);
    }
  }

  lemma {:induction false} AllSlicesFlatten(groups: seq<seq<Entry>>, limits: Limits)
    ensures Flatten(AllSlices(groups, limits)) == Flatten(groups)
    ensures forall i :: 0 <= i < |AllSlices(groups, limits)| ==> AllSlices(groups, limits)[i] != []
  {
    if groups != [] {
      var last := |groups| - 1;
      AllSlicesFlatten(groups[..last], limits);
      SlicesFlatten(groups[last], limits);
      SlicesNonEmpty(groups[last], limits);
      FlattenConcat(AllSlices(groups[..last], limits), Slices(groups[last], limits));
    }
  }

  /** A group holds each of its entries as often as the input does, and no other entry. */
  lemma {:induction false} MembersCount(g: Grouping, entries: seq<Entry>, key: string, e: Entry)
    ensures multiset(Members(g, entries, key))[e] == if g(e) == key then multiset(entries)[e] else 0
  {
    if entries != [] {
      var last := |entries| - 1;
      MembersCount(g, entries[..last], key, e);
      assert entries == entries[..last] + [entries[last]];
    }
  }

  lemma OneMoreGroup(groups: seq<seq<Entry>>, keys: seq<string>, key: string, e: Entry, n: nat)
    requires |groups| == |keys| > 0 && Distinct(keys)
    requires var last := |groups| - 1;
      && multiset(Flatten(groups[..last]))[e] == (if key in keys[..last] then n else 0)
      && multiset(groups[last])[e] == (if key == keys[last] then n else 0)
    ensures multiset(Flatten(groups))[e] == if key in keys then n else 0
  {
    var last := |groups| - 1;
    assert keys == keys[..last] + [keys[last]];
    assert Flatten(groups) == Flatten(groups[..last]) + groups[last];
  }

  lemma {:induction false} GroupsCount(g: Grouping, entries: seq<Entry>, keys: seq<string>, groups: seq<seq<Entry>>, e: Entry)
    requires |groups| == |keys| && Distinct(keys)
    requires forall i :: 0 <= i < |groups| ==> multiset(groups[i]) == multiset(Members(g, entries, keys[i]))
    ensures multiset(Flatten(groups))[e] == if g(e) in keys then multiset(entries)[e] else 0
    decreases |groups|
  {
    if groups != [] {
      var last := |groups| - 1;
      GroupsCount(g, entries, keys[..last], groups[..last], e);
      MembersCount(g, entries, keys[last], e);
      assert multiset(groups[last])[e] == multiset(Members(g, entries, keys[last]))[e];
      OneMoreGroup(groups, keys, g(e), e, multiset(entries)[e]);
    }
  }

  lemma GroupsPartition(g: Grouping, entries: seq<Entry>, groups: seq<seq<Entry>>)
    requires SortedGroups(g, entries, groups)
    ensures multiset(Flatten(groups)) == multiset(entries)
  {
    var keys := Listing(GroupKeys(g, entries));
    ListingOf(GroupKeys(g, entries));
    ListingMembers(GroupKeys(g, entries));
    forall e ensures multiset(Flatten(groups))[e] == multiset(entries)[e] {
      assert forall i :: 0 <= i < |groups| ==> SortedGroup(g, entries, keys[i], groups[i]);
      GroupsCount(g, entries, keys, groups, e);
      if e in multiset(entries) {
        assert e in entries;
        assert g(e) in GroupKeys(g, entries);
      }
    }
  }

  /** The tasks hold exactly the inventory entries, each as often as it occurs, and no task is empty. */
  lemma PlanPartitions(g: Grouping, entries: seq<Entry>, groups: seq<seq<Entry>>, limits: Limits)
    requires SortedGroups(g, entries, groups)
    ensures multiset(Flatten(AllSlices(groups, limits))) == multiset(entries)
    ensures forall i :: 0 <= i < |AllSlices(groups, limits)| ==> AllSlices(groups, limits)[i] != []
  {
    GroupsPartition(g, entries, groups);
    AllSlicesFlatten(groups, limits);
  }

  lemma TaskHoldsSlice(digest: TaskDigest, snapshotID: string, x: Index, groups: seq<seq<Entry>>, limits: Limits, i: nat)
    requires i < |AllSlices(groups, limits)|
    ensures var task := PlanTasks(digest, snapshotID, x, groups, limits)[i];
      var slice := AllSlices(groups, limits)[i];
      && task.paths == RefsOf(x, slice) && task.totalBytes == Bytes(slice)
      && task.contractTypes == Listing(TaskTypes(x, slice)) && task.risk == TaskRisk(x, slice)
      && task.id == digest(TaskContent(snapshotID, task.risk, task.contractTypes, task.paths))
      && task.snapshotID == snapshotID
  {
  }

  // ----- Bytes are conserved -----

  function TotalBytes(tasks: seq<Task>): int
  {
    if tasks == [] then 0 else TotalBytes(tasks[..|tasks| - 1]) + tasks[|tasks| - 1].totalBytes
  }

  lemma {:induction false} BytesConcat(a: seq<Entry>, b: seq<Entry>)
    ensures Bytes(a + b) == Bytes(a) + Bytes(b)
    decreases |b|
  {
    if b == [] {
      assert a + b == a;
    } else {
      BytesConcat(a, b[..|b| - 1]);
      assert (a + b)[..|a + b| - 1] == a + b[..|b| - 1];
    }
  }

  lemma BytesAppend(a: seq<Entry>, e: Entry)
    ensures Bytes(a + [e]) == Bytes(a) + EntryBytes(e)
  {
    assert (a + [e])[..|a|] == a;
  }

  lemma BytesWithout(b: seq<Entry>, k: nat)
    requires k < |b|
    ensures Bytes(b) == Bytes(Without(b, k)) + EntryBytes(b[k])
  {
    Around(b, k);
    BytesMiddle(b[..k], b[k], b[k + 1..]);
  }

  lemma BytesMiddle(before: seq<Entry>, e: Entry, after: seq<Entry>)
    ensures Bytes(before + [e] + after) == Bytes(before + after) + EntryBytes(e)
  {
    BytesConcat(before, after);
    BytesAppend(before, e);
    BytesConcat(before + [e], after);
  }

  lemma {:induction false} BytesPermutation(a: seq<Entry>, b: seq<Entry>)
    requires multiset(a) == multiset(b)
    ensures Bytes(a) == Bytes(b)
    decreases |a|
  {
    SameLength(a, b);
    if a != [] {
      var k := FindIn(a, b);
      BytesPermutation(a[..|a| - 1], Without(b, k));
      BytesWithout(b, k);
    }
  }

  lemma {:induction false} TasksBytes(digest: TaskDigest, snapshotID: string, x: Index, slices: seq<seq<Entry>>, limit: int)
    ensures TotalBytes(TasksOf(digest, snapshotID, x, slices, limit)) == Bytes(Flatten(slices))
  {
    if slices != [] {
      var last := |slices| - 1;
      TasksBytes(digest, snapshotID, x, slices[..last], limit);
      assert TasksOf(digest, snapshotID, x, slices, limit)[..last] == TasksOf(digest, snapshotID, x, slices[..last], limit);
      BytesConcat(Flatten(slices[..last]), slices[last]);
    }
  }

  lemma {:induction false} LinkingKeepsBytes(tasks: seq<Task>, linked: seq<Task>)
    requires |linked| == |tasks| && forall i :: 0 <= i < |tasks| ==> linked[i].totalBytes == tasks[i].totalBytes
    ensures TotalBytes(linked) == TotalBytes(tasks)
  {
    if tasks != [] {
      LinkingKeepsBytes(tasks[..|tasks| - 1], linked[..|tasks| - 1]);
    }
  }

  /** The tasks' byte totals add up to the entries' bytes. */
  lemma PlanConservesBytes(digest: TaskDigest, snapshotID: string, entries: seq<Entry>, x: Index, limits: Limits,
                           groups: seq<seq<Entry>>, plan: Plan)
    requires IsPlan(digest, snapshotID, entries, x, limits, groups, plan)
    ensures TotalBytes(plan.tasks) == Bytes(entries)
  {
    var slices := AllSlices(groups, limits);
    var tasks := TasksOf(digest, snapshotID, x, slices, limits.maxPacketBytes);
    LinkingKeepsBytes(tasks, plan.tasks);
    TasksBytes(digest, snapshotID, x, slices, limits.maxPacketBytes);
    PlanPartitions(GroupingOf(x), entries, groups, limits);
    BytesPermutation(Flatten(slices), entries);
  }

  // ----- Paths are kept whole -----

  /** Entries of one path fall into one group. */
  ghost predicate GroupsByPath(g: Grouping, entries: seq<Entry>)
  {
    forall a, b :: a in entries && b in entries && a.path == b.path ==> g(a) == g(b)
  }

  /** Equal path bytes give equal display names, as every captured inventory has them. */
  ghost predicate DisplayConsistent(entries: seq<Entry>)
  {
    forall a, b :: a in entries && b in entries && a.path == b.path ==> a.display == b.display
  }

  lemma DisplayGroups(x: Index, entries: seq<Entry>)
    requires DisplayConsistent(entries)
    ensures GroupsByPath(GroupingOf(x), entries)
  {
  }

  ghost predicate PathsDisjoint(lists: seq<seq<Entry>>)
  {
    forall i, j :: 0 <= i < j < |lists| ==> PathsOf(lists[i]) !! PathsOf(lists[j])
  }

  lemma PathMember(entries: seq<Entry>, p: string)
    ensures p in PathsOf(entries) <==> exists e :: e in entries && e.path == p
  {
    if p in PathsOf(entries) {
      var i :| 0 <= i < |entries| && entries[i].path == p;
      assert entries[i] in entries;
    }
  }

  lemma MembersAreOfKey(g: Grouping, entries: seq<Entry>, key: string, group: seq<Entry>, e: Entry)
    requires SortedGroup(g, entries, key, group) && e in group
    ensures g(e) == key && e in entries
  {
    MembersCount(g, entries, key, e);
    assert e in multiset(group);
    assert multiset(Members(g, entries, key))[e] > 0;
    assert e in multiset(entries);
  }

  lemma GroupsDisjoint(g: Grouping, entries: seq<Entry>, groups: seq<seq<Entry>>)
    requires SortedGroups(g, entries, groups) && GroupsByPath(g, entries)
    ensures PathsDisjoint(groups)
  {
    var keys := Listing(GroupKeys(g, entries));
    ListingOf(GroupKeys(g, entries));
    forall i, j | 0 <= i < j < |groups| ensures PathsOf(groups[i]) !! PathsOf(groups[j]) {
      forall p | p in PathsOf(groups[i]) && p in PathsOf(groups[j]) ensures false {
        PathMember(groups[i], p);
        PathMember(groups[j], p);
        var a :| a in groups[i] && a.path == p;
        var b :| b in groups[j] && b.path == p;
        MembersAreOfKey(g, entries, keys[i], groups[i], a);
        MembersAreOfKey(g, entries, keys[j], groups[j], b);
      }
    }
  }

  /** In a sorted group the entries of a path are contiguous. */
  lemma PathsAreContiguous(items: seq<Entry>, i: nat, n: nat, m: nat)
    requires SortedBy(EntryLE, items) && i < n <= m < |items| && items[i].path != items[n].path
    ensures items[i].path != items[m].path
  {
    EntryOrder();
    assert EntryLE(items[i], items[n]);
    assert n < m ==> EntryLE(items[n], items[m]);
    if items[i].path == items[m].path {
      StringLEAntisymmetric(items[i].path, items[n].path);
    }
  }

  /** A slice never cuts a path in two. */
  lemma CutKeepsPathsWhole(items: seq<Entry>, limits: Limits, n: nat)
    requires SortedBy(EntryLE, items) && GreedySlice(items, limits, n)
    ensures PathsOf(items[..n]) !! PathsOf(items[n..])
  {
    forall i, m | 0 <= i < n <= m < |items| ensures items[i].path != items[m].path {
      assert items[..n][i].path in PathsOf(items[..n]);
      PathsAreContiguous(items, i, n, m);
    }
    assert forall i :: 0 <= i < n ==> items[..n][i] == items[i];
    assert forall k :: 0 <= k < |items| - n ==> items[n..][k] == items[n + k];
  }

  lemma SliceSubset(items: seq<Entry>, limits: Limits, i: nat)
    requires i < |Slices(items, limits)|
    ensures PathsOf(Slices(items, limits)[i]) <= PathsOf(items)
    decreases |items|
  {
    var n := SliceCount(items, limits);
    if i > 0 {
      SliceSubset(items[n..], limits, i - 1);
      SubsequencePaths(items, items[n..], n);
    } else {
      SubsequencePaths(items, items[..n], 0);
    }
  }

  lemma SubsequencePaths(items: seq<Entry>, part: seq<Entry>, from: nat)
    requires from + |part| <= |items| && part == items[from..from + |part|]
    ensures PathsOf(part) <= PathsOf(items)
  {
    forall p | p in PathsOf(part) ensures p in PathsOf(items) {
      var i :| 0 <= i < |part| && part[i].path == p;
      assert items[from + i].path == p;
    }
  }

  lemma {:induction false} SlicesDisjoint(items: seq<Entry>, limits: Limits)
    requires SortedBy(EntryLE, items)
    ensures PathsDisjoint(Slices(items, limits))
    decreases |items|
  {
    if items != [] {
      var n := SliceCount(items, limits);
      var rest := Slices(items[n..], limits);
      CutKeepsPathsWhole(items, limits, n);
      SlicesDisjoint(items[n..], limits);
      forall j | 0 <= j < |rest| ensures PathsOf(items[..n]) !! PathsOf(rest[j]) {
        SliceSubset(items[n..], limits, j);
      }
    }
  }

  lemma {:induction false} AllSliceSubset(groups: seq<seq<Entry>>, limits: Limits, i: nat) returns (k: nat)
    requires i < |AllSlices(groups, limits)|
    ensures k < |groups| && PathsOf(AllSlices(groups, limits)[i]) <= PathsOf(groups[k])
    decreases |groups|
  {
    var last := |groups| - 1;
    var before := AllSlices(groups[..last], limits);
    if i < |before| {
      k := AllSliceSubset(groups[..last], limits, i);
    } else {
      SliceSubset(groups[last], limits, i - |before|);
      k := last;
    }
  }

  lemma {:induction false} AllSlicesDisjoint(groups: seq<seq<Entry>>, limits: Limits)
    requires PathsDisjoint(groups) && forall i :: 0 <= i < |groups| ==> SortedBy(EntryLE, groups[i])
    ensures PathsDisjoint(AllSlices(groups, limits))
    decreases |groups|
  {
    if groups != [] {
      var last := |groups| - 1;
      var before, after := AllSlices(groups[..last], limits), Slices(groups[last], limits);
      AllSlicesDisjoint(groups[..last], limits);
      SlicesDisjoint(groups[last], limits);
      forall i, j | 0 <= i < |before| && 0 <= j < |after| ensures PathsOf(before[i]) !! PathsOf(after[j]) {
        var k := AllSliceSubset(groups[..last], limits, i);
        SliceSubset(groups[last], limits, j);
        assert PathsOf(groups[..last][k]) !! PathsOf(groups[last]);
      }
    }
  }

  /** No path is split: different tasks hold different paths. */
  lemma PlanKeepsPathsWhole(x: Index, entries: seq<Entry>, groups: seq<seq<Entry>>, limits: Limits)
    requires SortedGroups(GroupingOf(x), entries, groups) && DisplayConsistent(entries)
    ensures PathsDisjoint(AllSlices(groups, limits))
  {
    var keys := Listing(GroupKeys(GroupingOf(x), entries));
    DisplayGroups(x, entries);
    GroupsDisjoint(GroupingOf(x), entries, groups);
    assert forall i :: 0 <= i < |groups| ==> SortedGroup(GroupingOf(x), entries, keys[i], groups[i]);
    AllSlicesDisjoint(groups, limits);
  }

  lemma {:induction false} SingleHolder(tasks: seq<Task>, p: string)
    requires forall i, j :: 0 <= i < j < |tasks| ==> TaskPaths(tasks[i]) !! TaskPaths(tasks[j])
    ensures p in AllPaths(tasks) ==> Holders(tasks, p) == 1
  {
    if tasks != [] {
      var last := |tasks| - 1;
      SingleHolder(tasks[..last], p);
      AllPathsStep(tasks, last);
      assert tasks[..last + 1] == tasks;
      UncountedPaths(tasks[..last], p);
      assert forall i :: 0 <= i < last ==> TaskPaths(tasks[..last][i]) !! TaskPaths(tasks[last]);
    }
  }

  lemma RefsPaths(x: Index, entries: seq<Entry>, t: Task)
    requires t.paths == RefsOf(x, entries)
    ensures TaskPaths(t) == PathsOf(entries)
  {
    assert forall i :: 0 <= i < |entries| ==> t.paths[i].path == entries[i].path;
  }

  /** Every changed path is counted exactly once, and nothing else is counted. */
  lemma PlanCoversEachPathOnce(digest: TaskDigest, snapshotID: string, entries: seq<Entry>, x: Index, limits: Limits,
                               groups: seq<seq<Entry>>, plan: Plan, p: string)
    requires IsPlan(digest, snapshotID, entries, x, limits, groups, plan) && DisplayConsistent(entries)
    ensures p in plan.coverage <==> exists e :: e in entries && e.path == p
    ensures p in plan.coverage ==> plan.coverage[p] == 1
  {
    var slices := AllSlices(groups, limits);
    PlanKeepsPathsWhole(x, entries, groups, limits);
    forall i | 0 <= i < |slices| ensures TaskPaths(plan.tasks[i]) == PathsOf(slices[i]) {
      TaskHoldsSlice(digest, snapshotID, x, groups, limits, i);
      RefsPaths(x, slices[i], plan.tasks[i]);
    }
    SingleHolder(plan.tasks, p);
    PlanPartitions(GroupingOf(x), entries, groups, limits);
    FlattenPaths(slices, p);
    PathMember(Flatten(slices), p);
    assert p in AllPaths(plan.tasks) <==> exists i :: 0 <= i < |slices| && p in PathsOf(slices[i]);
    forall e ensures e in Flatten(slices) <==> e in entries {
      assert e in Flatten(slices) <==> e in multiset(Flatten(slices));
      assert e in entries <==> e in multiset(entries);
    }
  }

  lemma {:induction false} FlattenPaths(lists: seq<seq<Entry>>, p: string)
    ensures p in PathsOf(Flatten(lists)) <==> exists i :: 0 <= i < |lists| && p in PathsOf(lists[i])
  {
    if lists != [] {
      var last := |lists| - 1;
      FlattenPaths(lists[..last], p);
      var a, b := Flatten(lists[..last]), lists[last];
      PathMember(a + b, p);
      PathMember(a, p);
      PathMember(b, p);
      if p in PathsOf(a) {
        var i :| 0 <= i < last && p in PathsOf(lists[..last][i]);
        assert p in PathsOf(lists[i]);
      }
      forall i | 0 <= i < last && p in PathsOf(lists[i]) ensures p in PathsOf(a) {
        assert p in PathsOf(lists[..last][i]);
      }
    }
  }

  // ----- Limits -----

  /** A slice of two or more paths is within the byte limit up to the first entry of its last path; it never holds more paths than allowed. */
  lemma {:induction false} SliceWithinLimits(entries: seq<Entry>, limits: Limits, n: nat)
    requires limits.maxFiles >= 1 && 0 < n <= |entries|
    requires forall i :: 0 <= i < n ==> MayJoin(entries, limits, i)
    ensures |PathsOf(entries[..n])| <= limits.maxFiles
    ensures |PathsOf(entries[..n])| >= 2 ==>
      exists k :: && 0 < k < n && entries[k].path !in PathsOf(entries[..k])
                  && PathsOf(entries[..k + 1]) == PathsOf(entries[..n])
                  && Bytes(entries[..k + 1]) <= limits.maxPacketBytes
  {
    var last := n - 1;
    assert entries[..n] == entries[..last] + [entries[last]];
    PathsOfAppend(entries[..last], entries[last]);
    if last == 0 {
      assert PathsOf(entries[..0]) == {};
      assert PathsOf(entries[..n]) == {entries[0].path};
    } else {
      SliceWithinLimits(entries, limits, last);
      assert MayJoin(entries, limits, last);
      if entries[last].path in PathsOf(entries[..last]) {
        assert PathsOf(entries[..n]) == PathsOf(entries[..last]);
      } else {
        assert entries[..last + 1][..last] == entries[..last];
        assert PathsOf(entries[..last + 1]) == PathsOf(entries[..n]);
      }
    }
  }

  /** At most the allowed number of paths; two or more fit the byte limit up to the first entry of the last one. */
  ghost predicate WithinLimits(slice: seq<Entry>, limits: Limits)
  {
    && |PathsOf(slice)| <= limits.maxFiles
    && (|PathsOf(slice)| >= 2 ==>
          exists k :: 0 < k < |slice| && slice[k].path !in PathsOf(slice[..k]) && LastPathFits(slice, limits, k))
  }

  ghost predicate LastPathFits(slice: seq<Entry>, limits: Limits, k: nat)
    requires k < |slice|
  {
    PathsOf(slice[..k + 1]) == PathsOf(slice) && Bytes(slice[..k + 1]) <= limits.maxPacketBytes
  }

  lemma GreedyWithinLimits(items: seq<Entry>, limits: Limits, n: nat)
    requires limits.maxFiles >= 1 && GreedySlice(items, limits, n)
    ensures WithinLimits(items[..n], limits)
  {
    var slice := items[..n];
    SliceWithinLimits(items, limits, n);
    if |PathsOf(slice)| >= 2 {
      var k :| && 0 < k < n && items[k].path !in PathsOf(items[..k])
               && PathsOf(items[..k + 1]) == PathsOf(items[..n])
               && Bytes(items[..k + 1]) <= limits.maxPacketBytes;
      assert slice[..k] == items[..k] && slice[..k + 1] == items[..k + 1] && slice[k] == items[k];
      assert LastPathFits(slice, limits, k);
    }
  }

  lemma {:induction false} SlicesWithinLimits(items: seq<Entry>, limits: Limits, i: nat)
    requires limits.maxFiles >= 1 && i < |Slices(items, limits)|
    ensures WithinLimits(Slices(items, limits)[i], limits)
    decreases |items|
  {
    var n := SliceCount(items, limits);
    if i == 0 {
      GreedyWithinLimits(items, limits, n);
    } else {
      SlicesWithinLimits(items[n..], limits, i - 1);
    }
  }

  lemma {:induction false} AllSlicesWithinLimits(groups: seq<seq<Entry>>, limits: Limits, i: nat)
    requires limits.maxFiles >= 1 && i < |AllSlices(groups, limits)|
    ensures WithinLimits(AllSlices(groups, limits)[i], limits)
    decreases |groups|
  {
    var last := |groups| - 1;
    var before := AllSlices(groups[..last], limits);
    if i < |before| {
      AllSlicesWithinLimits(groups[..last], limits, i);
    } else {
      SlicesWithinLimits(groups[last], limits, i - |before|);
    }
  }

  /** Every task of a plan is within the limits, so only further scopes of its last path can make it oversized. */
  lemma TasksWithinLimits(digest: TaskDigest, snapshotID: string, entries: seq<Entry>, x: Index, requested: Limits,
                          groups: seq<seq<Entry>>, plan: Plan, i: nat)
    requires IsPlan(digest, snapshotID, entries, x, Effective(requested), groups, plan) && i < |plan.tasks|
    ensures var slice := AllSlices(groups, Effective(requested))[i];
      && plan.tasks[i].paths == RefsOf(x, slice) && WithinLimits(slice, Effective(requested))
      && |TaskPaths(plan.tasks[i])| <= if requested.maxFiles < 1 then 8 else requested.maxFiles
  {
    var limits := Effective(requested);
    TaskHoldsSlice(digest, snapshotID, x, groups, limits, i);
    AllSlicesWithinLimits(groups, limits, i);
    RefsPaths(x, AllSlices(groups, limits)[i], plan.tasks[i]);
  }

  /** The entry has a path of its own, and adding it to the slice would break a limit. */
  ghost predicate Overflows(slice: seq<Entry>, e: Entry, limits: Limits)
  {
    && e.path !in PathsOf(slice)
    && (|PathsOf(slice)| >= limits.maxFiles || Bytes(slice) + EntryBytes(e) > limits.maxPacketBytes)
  }

  lemma {:induction false} GroupSlicesOverflow(items: seq<Entry>, limits: Limits, i: nat)
    requires i + 1 < |Slices(items, limits)|
    ensures Slices(items, limits)[i + 1] != [] && Overflows(Slices(items, limits)[i], Slices(items, limits)[i + 1][0], limits)
    decreases |items|
  {
    var n := SliceCount(items, limits);
    if i > 0 {
      GroupSlicesOverflow(items[n..], limits, i - 1);
    } else {
      assert Slices(items, limits)[0] == items[..n] && Slices(items, limits)[1] == Slices(items[n..], limits)[0];
      assert Slices(items[n..], limits)[0][0] == items[n];
    }
  }

  /** Which group a slice is cut from. */
  lemma {:induction false} SliceHasGroup(groups: seq<seq<Entry>>, limits: Limits, i: nat) returns (j: nat)
    requires i < |AllSlices(groups, limits)|
    ensures j < |groups| && AllSlices(groups, limits)[i] != [] && AllSlices(groups, limits)[i][0] in groups[j]
    decreases |groups|
  {
    var last := |groups| - 1;
    var before := AllSlices(groups[..last], limits);
    if i < |before| {
      j := SliceHasGroup(groups[..last], limits, i);
    } else {
      j := last;
      SlicesNonEmpty(groups[last], limits);
      SliceStarts(groups[last], limits, i - |before|);
    }
  }

  lemma {:induction false} SliceStarts(items: seq<Entry>, limits: Limits, i: nat)
    requires i < |Slices(items, limits)|
    ensures Slices(items, limits)[i] != [] && Slices(items, limits)[i][0] in items
    decreases |items|
  {
    var n := SliceCount(items, limits);
    if i > 0 {
      SliceStarts(items[n..], limits, i - 1);
    } else {
      assert Slices(items, limits)[0][0] == items[0];
    }
  }

  /** The two slices start in different groups. */
  ghost predicate GroupEnds(groups: seq<seq<Entry>>, slice: seq<Entry>, next: seq<Entry>)
    requires slice != [] && next != []
  {
    exists j, k :: 0 <= j < k < |groups| && slice[0] in groups[j] && next[0] in groups[k]
  }

  lemma {:induction false} SlicesOverflow(groups: seq<seq<Entry>>, limits: Limits, i: nat)
    requires i + 1 < |AllSlices(groups, limits)|
    ensures var slices := AllSlices(groups, limits);
      && slices[i] != [] && slices[i + 1] != []
      && (Overflows(slices[i], slices[i + 1][0], limits) || GroupEnds(groups, slices[i], slices[i + 1]))
    decreases |groups|
  {
    var last := |groups| - 1;
    var before, here := AllSlices(groups[..last], limits), Slices(groups[last], limits);
    if i + 1 < |before| {
      SlicesOverflow(groups[..last], limits, i);
      if !Overflows(before[i], before[i + 1][0], limits) {
        var j, k :| 0 <= j < k < last && before[i][0] in groups[..last][j] && before[i + 1][0] in groups[..last][k];
        assert before[i][0] in groups[j] && before[i + 1][0] in groups[k];
      }
    } else if i + 1 == |before| {
      var j := SliceHasGroup(groups[..last], limits, i);
      SliceStarts(groups[last], limits, 0);
      assert before[i][0] in groups[j] && here[0][0] in groups[last];
    } else {
      GroupSlicesOverflow(groups[last], limits, i - |before|);
      SliceStarts(groups[last], limits, i - |before|);
    }
  }

  lemma GroupKeysDiffer(g: Grouping, entries: seq<Entry>, groups: seq<seq<Entry>>, j: nat, k: nat, a: Entry, b: Entry)
    requires SortedGroups(g, entries, groups) && j < k < |groups| && a in groups[j] && b in groups[k]
    ensures g(a) != g(b)
  {
    var keys := Listing(GroupKeys(g, entries));
    ListingOf(GroupKeys(g, entries));
    assert keys[j] != keys[k];
    MembersAreOfKey(g, entries, keys[j], groups[j], a);
    MembersAreOfKey(g, entries, keys[k], groups[k], b);
  }

  lemma ConsecutiveSlices(g: Grouping, entries: seq<Entry>, groups: seq<seq<Entry>>, limits: Limits, i: nat)
    requires SortedGroups(g, entries, groups) && i + 1 < |AllSlices(groups, limits)|
    ensures var slices := AllSlices(groups, limits);
      && slices[i] != [] && slices[i + 1] != []
      && (g(slices[i][0]) != g(slices[i + 1][0]) || Overflows(slices[i], slices[i + 1][0], limits))
  {
    var slices := AllSlices(groups, limits);
    SlicesOverflow(groups, limits, i);
    if !Overflows(slices[i], slices[i + 1][0], limits) {
      var j, k :| 0 <= j < k < |groups| && slices[i][0] in groups[j] && slices[i + 1][0] in groups[k];
      GroupKeysDiffer(g, entries, groups, j, k, slices[i][0], slices[i + 1][0]);
    }
  }

  /**
   Slices are greedy: of two consecutive tasks of a plan the second either begins another group, or
   begins with a new path that would have broken a limit of the first.
   */
  lemma SlicesAreGreedy(digest: TaskDigest, snapshotID: string, entries: seq<Entry>, x: Index, limits: Limits,
                        groups: seq<seq<Entry>>, plan: Plan, i: nat)
    requires IsPlan(digest, snapshotID, entries, x, limits, groups, plan) && i + 1 < |plan.tasks|
    ensures var slices := AllSlices(groups, limits);
      && plan.tasks[i].paths == RefsOf(x, slices[i]) && plan.tasks[i + 1].paths == RefsOf(x, slices[i + 1])
      && slices[i] != [] && slices[i + 1] != []
      && (GroupKey(x, slices[i][0]) != GroupKey(x, slices[i + 1][0]) || Overflows(slices[i], slices[i + 1][0], limits))
  {
    TaskHoldsSlice(digest, snapshotID, x, groups, limits, i);
    TaskHoldsSlice(digest, snapshotID, x, groups, limits, i + 1);
    ConsecutiveSlices(GroupingOf(x), entries, groups, limits, i);
  }

  // ----- One answer for any input order -----

  /** No two different entries share scope and path. */
  ghost predicate DistinctKeys(entries: seq<Entry>)
  {
    && (forall a, b :: a in entries && b in entries && a.scope == b.scope && a.path == b.path ==> a == b)
    && Distinct(entries)
  }

  lemma GroupsUnique(g: Grouping, a: seq<Entry>, b: seq<Entry>, groupsA: seq<seq<Entry>>, groupsB: seq<seq<Entry>>)
    requires multiset(a) == multiset(b) && DistinctKeys(a)
    requires SortedGroups(g, a, groupsA) && SortedGroups(g, b, groupsB)
    ensures groupsA == groupsB
  {
    GroupKeysPermutation(g, a, b);
    var keys := Listing(GroupKeys(g, a));
    EntryOrder();
    forall i | 0 <= i < |groupsA| ensures groupsA[i] == groupsB[i] {
      assert SortedGroup(g, a, keys[i], groupsA[i]) && SortedGroup(g, b, keys[i], groupsB[i]);
      forall e ensures multiset(groupsA[i])[e] == multiset(groupsB[i])[e] {
        MembersCount(g, a, keys[i], e);
        MembersCount(g, b, keys[i], e);
      }
      assert NoTies(EntryLE, groupsA[i]) by {
        forall e | e in groupsA[i] ensures e in a { MembersAreOfKey(g, a, keys[i], groupsA[i], e); }
      }
      SortedUnique(EntryLE, groupsA[i], groupsB[i]);
    }
  }

  lemma GroupKeysPermutation(g: Grouping, a: seq<Entry>, b: seq<Entry>)
    requires multiset(a) == multiset(b)
    ensures GroupKeys(g, a) == GroupKeys(g, b)
  {
    forall key ensures key in GroupKeys(g, a) <==> key in GroupKeys(g, b) {
      if key in GroupKeys(g, a) {
        var i :| 0 <= i < |a| && g(a[i]) == key;
        assert a[i] in multiset(b);
        assert a[i] in b;
      }
      if key in GroupKeys(g, b) {
        var i :| 0 <= i < |b| && g(b[i]) == key;
        assert b[i] in multiset(a);
        assert b[i] in a;
      }
    }
  }

  /** Permuting the inventory does not change the plan. */
  lemma PlanIgnoresInputOrder(digest: TaskDigest, snapshotID: string, a: seq<Entry>, b: seq<Entry>, x: Index, limits: Limits,
                              groupsA: seq<seq<Entry>>, groupsB: seq<seq<Entry>>, planA: Plan, planB: Plan)
    requires multiset(a) == multiset(b) && DistinctKeys(a)
    requires IsPlan(digest, snapshotID, a, x, limits, groupsA, planA) && IsPlan(digest, snapshotID, b, x, limits, groupsB, planB)
    ensures planA == planB
  {
    GroupsUnique(GroupingOf(x), a, b, groupsA, groupsB);
    SameTasksSameCoverage(planA, planB);
  }

  lemma SameTasksSameCoverage(planA: Plan, planB: Plan)
    requires planA.tasks == planB.tasks
    requires Counts(planA.coverage, planA.tasks) && Counts(planB.coverage, planB.tasks)
    ensures planA.coverage == planB.coverage
  {
    assert planA.coverage.Keys == planB.coverage.Keys;
  }

  // ----- Distinct task identifiers -----

  function ContentOf(task: Task): TaskContent
  {
    TaskContent(task.snapshotID, task.risk, task.contractTypes, task.paths)
  }

  /** No two different contents among these tasks have one digest. */
  ghost predicate TasksDoNotCollide(digest: TaskDigest, tasks: seq<Task>)
  {
    forall i, j :: 0 <= i < j < |tasks| && digest(ContentOf(tasks[i])) == digest(ContentOf(tasks[j])) ==>
      ContentOf(tasks[i]) == ContentOf(tasks[j])
  }

  lemma {:induction false} FlattenDistinct<T>(lists: seq<seq<T>>, i: nat, j: nat, e: T)
    requires i < j < |lists| && e in lists[i] && e in lists[j]
    ensures multiset(Flatten(lists))[e] >= 2
    decreases |lists|
  {
    var last := |lists| - 1;
    if j < last {
      FlattenDistinct(lists[..last], i, j, e);
    } else {
      FlattenHolds(lists[..last], i, e);
      assert e in multiset(lists[last]);
    }
  }

  lemma {:induction false} FlattenHolds<T>(lists: seq<seq<T>>, i: nat, e: T)
    requires i < |lists| && e in lists[i]
    ensures e in multiset(Flatten(lists))
    decreases |lists|
  {
    var last := |lists| - 1;
    if i < last {
      FlattenHolds(lists[..last], i, e);
    } else {
      assert e in multiset(lists[last]);
    }
  }

  /** Each entry lies in exactly one task. */
  lemma EachEntryInOneTask(g: Grouping, entries: seq<Entry>, groups: seq<seq<Entry>>, limits: Limits, e: Entry) returns (i: nat)
    requires SortedGroups(g, entries, groups) && DistinctKeys(entries) && e in entries
    ensures var slices := AllSlices(groups, limits);
      && i < |slices| && e in slices[i]
      && forall j :: 0 <= j < |slices| && e in slices[j] ==> j == i
  {
    var slices := AllSlices(groups, limits);
    PlanPartitions(g, entries, groups, limits);
    DistinctMultiset(entries);
    assert e in multiset(entries);
    assert multiset(Flatten(slices))[e] == 1;
    i := FlattenIndex(slices, e);
    forall j | 0 <= j < |slices| && e in slices[j] ensures j == i {
      if j < i { FlattenDistinct(slices, j, i, e); }
      if i < j { FlattenDistinct(slices, i, j, e); }
    }
  }

  lemma {:induction false} FlattenIndex<T>(lists: seq<seq<T>>, e: T) returns (i: nat)
    requires e in multiset(Flatten(lists))
    ensures i < |lists| && e in lists[i]
  {
    var last := |lists| - 1;
    if e in lists[last] {
      i := last;
    } else {
      assert e !in multiset(lists[last]);
      i := FlattenIndex(lists[..last], e);
    }
  }

  /** Unless two of its tasks' contents collide, a plan's tasks have different identifiers. */
  lemma TaskIDsDistinct(digest: TaskDigest, snapshotID: string, entries: seq<Entry>, x: Index, limits: Limits,
                        groups: seq<seq<Entry>>, plan: Plan, i: nat, j: nat)
    requires IsPlan(digest, snapshotID, entries, x, limits, groups, plan)
    requires TasksDoNotCollide(digest, plan.tasks) && DistinctKeys(entries)
    requires i < j < |plan.tasks|
    ensures plan.tasks[i].id != plan.tasks[j].id
  {
    var slices := AllSlices(groups, limits);
    TaskHoldsSlice(digest, snapshotID, x, groups, limits, i);
    TaskHoldsSlice(digest, snapshotID, x, groups, limits, j);
    PlanPartitions(GroupingOf(x), entries, groups, limits);
    if plan.tasks[i].id == plan.tasks[j].id {
      assert digest(ContentOf(plan.tasks[i])) == digest(ContentOf(plan.tasks[j]));
      assert RefsOf(x, slices[i]) == RefsOf(x, slices[j]);
      var a, b := slices[i][0], slices[j][0];
      assert RefOf(x, a) == RefsOf(x, slices[i])[0] == RefsOf(x, slices[j])[0] == RefOf(x, b);
      FlattenHolds(slices, i, a);
      FlattenHolds(slices, j, b);
      assert a in entries && b in entries by { assert a in multiset(entries) && b in multiset(entries); }
      assert a == b;
      FlattenDistinct(slices, i, j, a);
      DistinctMultiset(entries);
      assert false;
    }
  }

  // ----- Passes -----

  /** A task asks for one pass, or for two passes with the two fixed perspectives. */
  lemma PassesMatchPerspectives(digest: TaskDigest, snapshotID: string, x: Index, entries: seq<Entry>, limit: int)
    ensures var task := TaskOf(digest, snapshotID, x, entries, limit);
      && task.requiredPasses == |task.perspectives| && (task.requiredPasses == 1 || task.requiredPasses == 2)
      && Distinct(task.perspectives)
      && (task.requiredPasses == 2 <==> exists e :: e in entries && Rank(RiskOf(x, e.path).level) >= 3)
  {
    RiskIsMaximum(x, entries);
    assert "correctness" != "failure-recovery";
  }

  /** The passes a task of a plan asks for. */
  lemma TaskPasses(digest: TaskDigest, snapshotID: string, x: Index, groups: seq<seq<Entry>>, limits: Limits, i: nat)
    requires i < |AllSlices(groups, limits)|
    ensures var task := PlanTasks(digest, snapshotID, x, groups, limits)[i];
      var owner := RequiresOwner(TaskRisk(x, AllSlices(groups, limits)[i]));
      && task.requiredPasses == (if owner then 2 else 1)
      && task.perspectives == if owner then ["correctness", "failure-recovery"] else ["correctness"]
  {
  }

  lemma {:induction false} RiskIsMaximum(x: Index, entries: seq<Entry>)
    ensures forall e :: e in entries ==> Rank(RiskOf(x, e.path).level) <= Rank(TaskRisk(x, entries))
    ensures Rank(TaskRisk(x, entries)) > 0 ==>
      exists e :: e in entries && Rank(RiskOf(x, e.path).level) == Rank(TaskRisk(x, entries))
  {
    if entries != [] {
      RiskIsMaximum(x, entries[..|entries| - 1]);
      assert entries == entries[..|entries| - 1] + [entries[|entries| - 1]];
    }
  }
}
