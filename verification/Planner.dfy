/**
 The review planner: changed inventory entries become tasks under file and byte budgets.

 Task identifiers come from a digest that is a parameter. The library sort leaves ties in
 any order, so `Build` is specified by a relation on its sorted groups.
 */
module Planner {
  import opened Ordering

  // ----- Inputs -----

  datatype Entry = Entry(
    scope: string, path: string, display: string, kind: string, size: int, previousSize: int,
    contentHash: string, previousContentHash: string)

  datatype PathRisk = PathRisk(path: string, level: string, needsConfirmation: bool)

  datatype Contract = Contract(kind: string, path: string)

  datatype Limits = Limits(maxFiles: int, maxPacketBytes: int)

  /** The two indexes `Build` makes of its inputs. */
  datatype Index = Index(risk: map<string, PathRisk>, contracts: map<string, seq<string>>)

  function RiskOf(x: Index, path: string): PathRisk
  {
    if path in x.risk then x.risk[path] else PathRisk("", "", false)
  }

  function TypesOf(x: Index, path: string): seq<string>
  {
    if path in x.contracts then x.contracts[path] else []
  }

  /** Later assessments of a path replace earlier ones. */
  function IndexRisk(assessment: seq<PathRisk>): map<string, PathRisk>
  {
    if assessment == [] then map[]
    else
      var last := assessment[|assessment| - 1];
      IndexRisk(assessment[..|assessment| - 1])[last.path := last]
  }

  /** A path's contract types, in graph order. */
  function IndexContracts(contracts: seq<Contract>): map<string, seq<string>>
  {
    if contracts == [] then map[]
    else
      var before, last := IndexContracts(contracts[..|contracts| - 1]), contracts[|contracts| - 1];
      before[last.path := (if last.path in before then before[last.path] else []) + [last.kind]]
  }

  function IndexOf(assessment: seq<PathRisk>, contracts: seq<Contract>): Index
  {
    Index(IndexRisk(assessment), IndexContracts(contracts))
  }

  method BuildIndex(assessment: seq<PathRisk>, contracts: seq<Contract>) returns (x: Index)
    ensures x == IndexOf(assessment, contracts)
  {
    var risk: map<string, PathRisk> := map[];
    for i := 0 to |assessment|
      invariant risk == IndexRisk(assessment[..i])
    {
      assert assessment[..i + 1][..i] == assessment[..i];
      risk := risk[assessment[i].path := assessment[i]];
    }
    var types: map<string, seq<string>> := map[];
    for i := 0 to |contracts|
      invariant types == IndexContracts(contracts[..i])
    {
      assert contracts[..i + 1][..i] == contracts[..i];
      var path := contracts[i].path;
      types := types[path := (if path in types then types[path] else []) + [contracts[i].kind]];
    }
    assert assessment[..|assessment|] == assessment && contracts[..|contracts|] == contracts;
    return Index(risk, types);
  }

  // ----- Outputs -----

  datatype PathRef = PathRef(
    scope: string, path: string, display: string, currentHash: string, previousHash: string,
    bytes: int, requiredCoverage: string)

  datatype Task = Task(
    id: string, snapshotID: string, risk: string, contractTypes: seq<string>, paths: seq<PathRef>,
    dependencyTasks: seq<string>, totalBytes: int, oversized: bool, needsConfirmation: bool,
    requiredPasses: nat, perspectives: seq<string>)

  datatype Plan = Plan(snapshotID: string, tasks: seq<Task>, coverage: map<string, nat>)

  /** What a task identifier is computed from. */
  datatype TaskContent = TaskContent(snapshotID: string, risk: string, contractTypes: seq<string>, paths: seq<PathRef>)

  type TaskDigest = TaskContent -> string

  // ----- Lists of strings without duplicates -----

  function Dedup(xs: seq<string>): (r: seq<string>)
    ensures Elements(r) == Elements(xs) && Distinct(r)
  {
    if xs == [] then []
    else
      var rest := Dedup(xs[1..]);
      assert Elements(xs) == {xs[0]} + Elements(xs[1..]);
      assert forall y :: y in rest <==> y in Elements(rest);
      if xs[0] in rest then rest
      else
        assert Elements([xs[0]] + rest) == {xs[0]} + Elements(rest);
        [xs[0]] + rest
  }

  /** Collect into a map, then sort the keys. */
  function Unique(xs: seq<string>): seq<string>
  {
    SortedStrings(Dedup(xs))
  }

  // ----- Grouping -----

  function Join(parts: seq<string>, separator: string): string
  {
    if parts == [] then ""
    else if |parts| == 1 then parts[0]
    else parts[0] + separator + Join(parts[1..], separator)
  }

  /** The first path component, with backslashes read as slashes; "." when there is none. */
  function FilepathGroup(path: string): string
  {
    if i :| 0 <= i < |path| && IsSlash(path[i]) && forall j :: 0 <= j < i ==> !IsSlash(path[j]) then path[..i] else "."
  }

  predicate IsSlash(c: char)
  {
    c == '/' || c == '\\'
  }

  function GroupKey(x: Index, e: Entry): string
  {
    var types := Unique(TypesOf(x, e.path));
    RiskOf(x, e.path).level + "|" + Join(types, ",") + if types == [] then "|" + FilepathGroup(e.display) else ""
  }

  /** How entries are grouped. */
  type Grouping = Entry -> string

  function GroupingOf(x: Index): Grouping
  {
    (e: Entry) => GroupKey(x, e)
  }

  /** The entries of one group, in input order. */
  function Members(g: Grouping, entries: seq<Entry>, key: string): seq<Entry>
  {
    if entries == [] then []
    else
      var last := entries[|entries| - 1];
      Members(g, entries[..|entries| - 1], key) + if g(last) == key then [last] else []
  }

  function GroupKeys(g: Grouping, entries: seq<Entry>): set<string>
  {
    set i | 0 <= i < |entries| :: g(entries[i])
  }

  /** By path bytes, then by scope. */
  predicate EntryLE(a: Entry, b: Entry)
  {
    if a.path != b.path then StringLE(a.path, b.path) else StringLE(a.scope, b.scope)
  }

  lemma EntryOrder()
    ensures TotalPreorder(EntryLE)
    ensures forall a, b :: EntryLE(a, b) && EntryLE(b, a) ==> a.path == b.path && a.scope == b.scope
    ensures forall a, b :: EntryLE(a, b) ==> StringLE(a.path, b.path)
  {
    StringOrder();
  }

  // ----- Slicing -----

  function EntryBytes(e: Entry): int
  {
    e.size + e.previousSize
  }

  function Bytes(entries: seq<Entry>): int
  {
    if entries == [] then 0 else Bytes(entries[..|entries| - 1]) + EntryBytes(entries[|entries| - 1])
  }

  function PathsOf(entries: seq<Entry>): set<string>
  {
    set i | 0 <= i < |entries| :: entries[i].path
  }

  /** Entry `i` may join the entries before it: its path is already there, or one more path and its bytes fit. */
  predicate MayJoin(entries: seq<Entry>, limits: Limits, i: nat)
    requires i < |entries|
  {
    || i == 0
    || entries[i].path in PathsOf(entries[..i])
    || (|PathsOf(entries[..i])| < limits.maxFiles && Bytes(entries[..i]) + EntryBytes(entries[i]) <= limits.maxPacketBytes)
  }

  /** `n` is the greedy slice: every entry of it may join, the next one may not. */
  ghost predicate GreedySlice(entries: seq<Entry>, limits: Limits, n: nat)
  {
    && 0 < n <= |entries|
    && (forall i :: 0 <= i < n ==> MayJoin(entries, limits, i))
    && (n < |entries| ==> !MayJoin(entries, limits, n))
  }

  function SliceFrom(entries: seq<Entry>, limits: Limits, n: nat): (r: nat)
    requires 0 < n <= |entries|
    requires forall i :: 0 <= i < n ==> MayJoin(entries, limits, i)
    ensures GreedySlice(entries, limits, r)
    decreases |entries| - n
  {
    if n == |entries| || !MayJoin(entries, limits, n) then n else SliceFrom(entries, limits, n + 1)
  }

  function SliceCount(entries: seq<Entry>, limits: Limits): (r: nat)
    requires entries != []
    ensures GreedySlice(entries, limits, r)
  {
    SliceFrom(entries, limits, 1)
  }

  lemma GreedySliceStops(entries: seq<Entry>, limits: Limits, m: nat, n: nat)
    requires 0 < m < |entries| && !MayJoin(entries, limits, m) && GreedySlice(entries, limits, n)
    ensures n <= m
  {
  }

  lemma GreedySliceUnique(entries: seq<Entry>, limits: Limits, m: nat, n: nat)
    requires GreedySlice(entries, limits, m) && GreedySlice(entries, limits, n)
    ensures m == n
  {
    if m < |entries| { GreedySliceStops(entries, limits, m, n); }
    if n < |entries| { GreedySliceStops(entries, limits, n, m); }
  }

  /** The slices of one sorted group, in order. */
  function Slices(items: seq<Entry>, limits: Limits): seq<seq<Entry>>
    decreases |items|
  {
    if items == [] then []
    else
      var n := SliceCount(items, limits);
      [items[..n]] + Slices(items[n..], limits)
  }

  function AllSlices(groups: seq<seq<Entry>>, limits: Limits): seq<seq<Entry>>
  {
    if groups == [] then []
    else AllSlices(groups[..|groups| - 1], limits) + Slices(groups[|groups| - 1], limits)
  }

  /** The loop over one group's entries; its fallback for an empty slice cannot be reached. */
  method SliceSize(entries: seq<Entry>, limits: Limits) returns (count: nat, total: int)
    requires entries != []
    ensures GreedySlice(entries, limits, count)
    ensures total == Bytes(entries[..count])
  {
    count, total := 0, 0;
    var seen: set<string> := {};
    for index := 0 to |entries|
      invariant count == index && total == Bytes(entries[..index])
      invariant seen == PathsOf(entries[..index])
      invariant forall i :: 0 <= i < index ==> MayJoin(entries, limits, i)
    {
      var entry := entries[index];
      assert entries[..index + 1][..index] == entries[..index];
      var newPath := entry.path !in seen;
      if index > 0 && newPath && (|seen| >= limits.maxFiles || total + EntryBytes(entry) > limits.maxPacketBytes) {
        break;
      }
      assert PathsOf(entries[..index + 1]) == PathsOf(entries[..index]) + {entry.path} by {
        PathsOfAppend(entries[..index], entry);
        assert entries[..index + 1] == entries[..index] + [entry];
      }
      seen := seen + {entry.path};
      total := total + EntryBytes(entry);
      count := count + 1;
    }
  }

  lemma PathsOfAppend(entries: seq<Entry>, e: Entry)
    ensures PathsOf(entries + [e]) == PathsOf(entries) + {e.path}
  {
    var all := entries + [e];
    forall p ensures p in PathsOf(all) <==> p in PathsOf(entries) + {e.path} {
      if p in PathsOf(entries) {
        var i :| 0 <= i < |entries| && entries[i].path == p;
        assert all[i].path == p;
      }
      if p == e.path { assert all[|entries|].path == p; }
    }
  }

  // ----- One task -----

  function Rank(level: string): nat
  {
    if level == "L1" then 1 else if level == "L2" then 2 else if level == "L3" then 3 else if level == "L4" then 4 else 0
  }

  function MaxLevel(left: string, right: string): string
  {
    if Rank(right) > Rank(left) then right else left
  }

  predicate RequiresOwner(level: string)
  {
    Rank(level) >= 3
  }

  predicate IsOpaqueKind(kind: string)
  {
    kind == "binary" || kind == "submodule" || kind == "lfs_pointer"
  }

  function RequiredCoverage(x: Index, e: Entry): string
  {
    if !IsOpaqueKind(e.kind) && RiskOf(x, e.path).level == "L0" then "mechanically_verified" else "fully_reviewed"
  }

  function RefOf(x: Index, e: Entry): PathRef
  {
    PathRef(e.scope, e.path, e.display, e.contentHash, e.previousContentHash, EntryBytes(e), RequiredCoverage(x, e))
  }

  function RefsOf(x: Index, entries: seq<Entry>): (r: seq<PathRef>)
    ensures |r| == |entries|
    ensures forall i :: 0 <= i < |r| ==> r[i] == RefOf(x, entries[i])
  {
    seq(|entries|, i requires 0 <= i < |entries| => RefOf(x, entries[i]))
  }

  function TaskRisk(x: Index, entries: seq<Entry>): string
  {
    if entries == [] then "L0"
    else MaxLevel(TaskRisk(x, entries[..|entries| - 1]), RiskOf(x, entries[|entries| - 1].path).level)
  }

  function TaskTypes(x: Index, entries: seq<Entry>): set<string>
  {
    set i, t | 0 <= i < |entries| && t in TypesOf(x, entries[i].path) :: t
  }

  predicate AnyUnconfirmed(x: Index, entries: seq<Entry>)
  {
    exists i :: 0 <= i < |entries| && (RiskOf(x, entries[i].path).needsConfirmation || IsOpaqueKind(entries[i].kind))
  }

  ghost function TaskOf(digest: TaskDigest, snapshotID: string, x: Index, entries: seq<Entry>, limit: int): Task
  {
    var risk, types, refs := TaskRisk(x, entries), Listing(TaskTypes(x, entries)), RefsOf(x, entries);
    Task(digest(TaskContent(snapshotID, risk, types, refs)), snapshotID, risk, types, refs, [],
         Bytes(entries), Bytes(entries) > limit, AnyUnconfirmed(x, entries) || RequiresOwner(risk),
         if RequiresOwner(risk) then 2 else 1,
         if RequiresOwner(risk) then ["correctness", "failure-recovery"] else ["correctness"])
  }

  /** The loop over a task's entries. */
  method FoldEntries(x: Index, entries: seq<Entry>)
    returns (risk: string, unconfirmed: bool, types: set<string>, refs: seq<PathRef>)
    ensures risk == TaskRisk(x, entries) && unconfirmed == AnyUnconfirmed(x, entries)
    ensures types == TaskTypes(x, entries) && refs == RefsOf(x, entries)
  {
    risk, unconfirmed, types, refs := "L0", false, {}, [];
    for i := 0 to |entries|
      invariant risk == TaskRisk(x, entries[..i]) && unconfirmed == AnyUnconfirmed(x, entries[..i])
      invariant types == TaskTypes(x, entries[..i]) && refs == RefsOf(x, entries[..i])
    {
      var entry := entries[i];
      assert entries[..i + 1] == entries[..i] + [entry];
      TaskFoldsAppend(x, entries[..i], entry);
      risk := MaxLevel(risk, RiskOf(x, entry.path).level);
      types := types + set t | t in TypesOf(x, entry.path);
      unconfirmed := unconfirmed || RiskOf(x, entry.path).needsConfirmation || IsOpaqueKind(entry.kind);
      refs := refs + [RefOf(x, entry)];
    }
    assert entries[..|entries|] == entries;
  }

  method MakeTask(digest: TaskDigest, snapshotID: string, x: Index, entries: seq<Entry>, total: int, limit: int) returns (task: Task)
    requires total == Bytes(entries)
    ensures task == TaskOf(digest, snapshotID, x, entries, limit)
  {
    var risk, unconfirmed, types, refs := FoldEntries(x, entries);
    var listed := SortedSet(types);
    var owner := RequiresOwner(risk);
    task := Task(digest(TaskContent(snapshotID, risk, listed, refs)), snapshotID, risk, listed, refs, [],
                 total, total > limit, unconfirmed || owner, if owner then 2 else 1,
                 if owner then ["correctness", "failure-recovery"] else ["correctness"]);
  }

  lemma TaskFoldsAppend(x: Index, entries: seq<Entry>, e: Entry)
    ensures TaskRisk(x, entries + [e]) == MaxLevel(TaskRisk(x, entries), RiskOf(x, e.path).level)
    ensures TaskTypes(x, entries + [e]) == TaskTypes(x, entries) + set t | t in TypesOf(x, e.path)
    ensures AnyUnconfirmed(x, entries + [e]) <==>
      AnyUnconfirmed(x, entries) || RiskOf(x, e.path).needsConfirmation || IsOpaqueKind(e.kind)
    ensures RefsOf(x, entries + [e]) == RefsOf(x, entries) + [RefOf(x, e)]
  {
    var all := entries + [e];
    assert forall i :: 0 <= i < |entries| ==> all[i] == entries[i];
    assert all[|entries|] == e && all[..|entries|] == entries;
  }

  ghost function TasksOf(digest: TaskDigest, snapshotID: string, x: Index, slices: seq<seq<Entry>>, limit: int): (r: seq<Task>)
    ensures |r| == |slices|
  {
    seq(|slices|, i requires 0 <= i < |slices| => TaskOf(digest, snapshotID, x, slices[i], limit))
  }

  // ----- Tasks by identifier -----

  /** The task a name denotes in the map filled in plan order: the last one. */
  function TaskByID(tasks: seq<Task>): map<string, Task>
  {
    if tasks == [] then map[] else TaskByID(tasks[..|tasks| - 1])[tasks[|tasks| - 1].id := tasks[|tasks| - 1]]
  }

  method CollectTasks(tasks: seq<Task>) returns (byID: map<string, Task>)
    ensures byID == TaskByID(tasks)
  {
    byID := map[];
    for n := 0 to |tasks|
      invariant byID == TaskByID(tasks[..n])
    {
      assert tasks[..n + 1][..n] == tasks[..n];
      byID := byID[tasks[n].id := tasks[n]];
    }
    assert tasks[..|tasks|] == tasks;
  }

  lemma {:induction false} TaskByIDMember(tasks: seq<Task>, id: string) returns (k: nat)
    requires id in TaskByID(tasks)
    ensures k < |tasks| && tasks[k].id == id && tasks[k] == TaskByID(tasks)[id]
  {
    var last := |tasks| - 1;
    if tasks[last].id == id {
      k := last;
    } else {
      k := TaskByIDMember(tasks[..last], id);
    }
  }

  // ----- Dependencies -----

  predicate Overlap(left: seq<string>, right: seq<string>)
  {
    exists l :: l in left && l in right
  }

  /** Identifiers of the earlier tasks that share a contract type with task `i`, in task order. */
  function EarlierPeers(tasks: seq<Task>, i: nat, n: nat): seq<string>
    requires n <= i < |tasks|
  {
    if n == 0 then []
    else EarlierPeers(tasks, i, n - 1) + if Overlap(tasks[i].contractTypes, tasks[n - 1].contractTypes) then [tasks[n - 1].id] else []
  }

  function LinkedTask(tasks: seq<Task>, i: nat): Task
    requires i < |tasks|
  {
    tasks[i].(dependencyTasks := SortedStrings(tasks[i].dependencyTasks + EarlierPeers(tasks, i, i)))
  }

  function LinkedTasks(tasks: seq<Task>): (r: seq<Task>)
    ensures |r| == |tasks|
    ensures forall i :: 0 <= i < |r| ==> r[i] == LinkedTask(tasks, i)
  {
    seq(|tasks|, i requires 0 <= i < |tasks| => LinkedTask(tasks, i))
  }

  /** Links one task in place; the other cells may already be linked, which changes neither their identifiers nor their types. */
  method LinkOne(tasks: array<Task>, left: nat, ghost was: seq<Task>)
    requires left < tasks.Length == |was| && tasks[left] == was[left]
    requires forall i :: 0 <= i < left ==> tasks[i].id == was[i].id && tasks[i].contractTypes == was[i].contractTypes
    modifies tasks
    ensures tasks[left] == LinkedTask(was, left)
    ensures forall i :: 0 <= i < tasks.Length && i != left ==> tasks[i] == old(tasks[i])
  {
    ghost var before := tasks[..];
    for right := 0 to left
      invariant forall i :: 0 <= i < tasks.Length && i != left ==> tasks[i] == before[i]
      invariant tasks[left] == was[left].(dependencyTasks := was[left].dependencyTasks + EarlierPeers(was, left, right))
    {
      var linked := tasks[left].dependencyTasks;
      if Overlap(tasks[left].contractTypes, tasks[right].contractTypes) {
        tasks[left] := tasks[left].(dependencyTasks := linked + [tasks[right].id]);
      }
      assert was[left].dependencyTasks + EarlierPeers(was, left, right + 1) == tasks[left].dependencyTasks;
    }
    tasks[left] := tasks[left].(dependencyTasks := SortedStrings(tasks[left].dependencyTasks));
  }

  /** The task at `i` is linked already, or still as it was. */
  ghost predicate LinkedUpTo(was: seq<Task>, linked: seq<Task>, now: seq<Task>, left: nat)
  {
    && |now| == |was| == |linked|
    && (forall i :: 0 <= i < left && i < |was| ==> now[i] == linked[i])
    && (forall i :: left <= i < |was| ==> now[i] == was[i])
  }

  /** Links the tasks in place. */
  method LinkDependencies(tasks: array<Task>)
    modifies tasks
    ensures tasks[..] == LinkedTasks(old(tasks[..]))
  {
    ghost var was := tasks[..];
    ghost var linked := LinkedTasks(was);
    for left := 0 to tasks.Length
      invariant LinkedUpTo(was, linked, tasks[..], left)
    {
      ghost var now := tasks[..];
      forall i | 0 <= i < left ensures tasks[i].id == was[i].id && tasks[i].contractTypes == was[i].contractTypes {
        assert tasks[i] == now[i] == linked[i];
      }
      assert tasks[left] == now[left] == was[left];
      LinkOne(tasks, left, was);
      assert linked[left] == LinkedTask(was, left) == tasks[left];
      assert forall i :: 0 <= i < tasks.Length && i != left ==> tasks[..][i] == now[i];
    }
    assert tasks[..] == linked;
  }

  // ----- Coverage -----

  function TaskPaths(t: Task): set<string>
  {
    set i | 0 <= i < |t.paths| :: t.paths[i].path
  }

  /** How many tasks hold a path. */
  function Holders(tasks: seq<Task>, path: string): nat
  {
    if tasks == [] then 0
    else Holders(tasks[..|tasks| - 1], path) + if path in TaskPaths(tasks[|tasks| - 1]) then 1 else 0
  }

  function AllPaths(tasks: seq<Task>): set<string>
  {
    set i, p | 0 <= i < |tasks| && p in TaskPaths(tasks[i]) :: p
  }

  ghost predicate Counts(coverage: map<string, nat>, tasks: seq<Task>)
  {
    coverage.Keys == AllPaths(tasks) && forall p :: p in coverage ==> coverage[p] == Holders(tasks, p)
  }

  method CountCoverage(tasks: seq<Task>) returns (coverage: map<string, nat>)
    ensures Counts(coverage, tasks)
  {
    coverage := map[];
    for index := 0 to |tasks|
      invariant Counts(coverage, tasks[..index])
    {
      ghost var before := coverage;
      var task := tasks[index];
      var seen: set<string> := {};
      for k := 0 to |task.paths|
        invariant seen == TaskPaths(task.(paths := task.paths[..k]))
        invariant coverage.Keys == before.Keys + seen
        invariant forall p :: p in coverage ==>
          coverage[p] == (if p in before then before[p] else 0) + if p in seen then 1 else 0
      {
        var path := task.paths[k].path;
        TaskPathsStep(task, k);
        if path !in seen {
          coverage := coverage[path := (if path in coverage then coverage[path] else 0) + 1];
          seen := seen + {path};
        }
      }
      assert task.paths[..|task.paths|] == task.paths;
      CountsStep(before, coverage, tasks, index);
    }
    assert tasks[..|tasks|] == tasks;
  }

  lemma TaskPathsStep(task: Task, k: nat)
    requires k < |task.paths|
    ensures TaskPaths(task.(paths := task.paths[..k + 1])) == TaskPaths(task.(paths := task.paths[..k])) + {task.paths[k].path}
  {
    var a, b := task.paths[..k + 1], task.paths[..k];
    assert a[k] == task.paths[k];
    assert forall i :: 0 <= i < k ==> a[i] == b[i];
  }

  lemma AllPathsStep(tasks: seq<Task>, index: nat)
    requires index < |tasks|
    ensures AllPaths(tasks[..index + 1]) == AllPaths(tasks[..index]) + TaskPaths(tasks[index])
  {
    var a, b := tasks[..index + 1], tasks[..index];
    assert a[index] == tasks[index];
    assert forall i :: 0 <= i < index ==> a[i] == b[i];
  }

  lemma {:induction false} UncountedPaths(tasks: seq<Task>, path: string)
    ensures Holders(tasks, path) == 0 <==> path !in AllPaths(tasks)
  {
    if tasks != [] {
      var n := |tasks| - 1;
      UncountedPaths(tasks[..n], path);
      AllPathsStep(tasks, n);
      assert tasks[..n + 1] == tasks;
    }
  }

  lemma CountsStep(before: map<string, nat>, after: map<string, nat>, tasks: seq<Task>, index: nat)
    requires index < |tasks| && Counts(before, tasks[..index])
    requires after.Keys == before.Keys + TaskPaths(tasks[index])
    requires forall p :: p in after ==> after[p] == (if p in before then before[p] else 0) + if p in TaskPaths(tasks[index]) then 1 else 0
    ensures Counts(after, tasks[..index + 1])
  {
    AllPathsStep(tasks, index);
    assert tasks[..index + 1][..index] == tasks[..index];
    forall p | p in after ensures after[p] == Holders(tasks[..index + 1], p) {
      UncountedPaths(tasks[..index], p);
    }
  }

  // ----- Build -----

  function Effective(limits: Limits): Limits
  {
    Limits(if limits.maxFiles < 1 then 8 else limits.maxFiles, if limits.maxPacketBytes < 1 then 250000 else limits.maxPacketBytes)
  }

  /** One sorted list per group key, in key order, each a permutation of the group's entries. */
  ghost predicate SortedGroups(g: Grouping, entries: seq<Entry>, groups: seq<seq<Entry>>)
  {
    var keys := Listing(GroupKeys(g, entries));
    |groups| == |keys| && forall i :: 0 <= i < |groups| ==> SortedGroup(g, entries, keys[i], groups[i])
  }

  ghost predicate SortedGroup(g: Grouping, entries: seq<Entry>, key: string, group: seq<Entry>)
  {
    SortedBy(EntryLE, group) && multiset(group) == multiset(Members(g, entries, key))
  }

  /** The plan made of sorted groups. */
  ghost function PlanTasks(digest: TaskDigest, snapshotID: string, x: Index, groups: seq<seq<Entry>>, limits: Limits): seq<Task>
  {
    LinkedTasks(TasksOf(digest, snapshotID, x, AllSlices(groups, limits), limits.maxPacketBytes))
  }

  ghost predicate Grouped(g: Grouping, entries: seq<Entry>, groups: map<string, seq<Entry>>)
  {
    && groups.Keys == GroupKeys(g, entries)
    && forall key :: Members(g, entries, key) == if key in groups then groups[key] else []
  }

  lemma GroupedStep(g: Grouping, entries: seq<Entry>, e: Entry, groups: map<string, seq<Entry>>)
    requires Grouped(g, entries, groups)
    ensures var key := g(e);
      Grouped(g, entries + [e], groups[key := (if key in groups then groups[key] else []) + [e]])
  {
    GroupKeysAppend(g, entries, e);
    forall key ensures Members(g, entries + [e], key) == Members(g, entries, key) + if g(e) == key then [e] else [] {
      MembersAppend(g, entries, e, key);
    }
  }

  lemma GroupKeysAppend(g: Grouping, entries: seq<Entry>, e: Entry)
    ensures GroupKeys(g, entries + [e]) == GroupKeys(g, entries) + {g(e)}
  {
    var all := entries + [e];
    assert all[|entries|] == e && forall j :: 0 <= j < |entries| ==> all[j] == entries[j];
    forall key ensures key in GroupKeys(g, all) <==> key in GroupKeys(g, entries) + {g(e)} {
      if key in GroupKeys(g, entries) {
        var j :| 0 <= j < |entries| && g(entries[j]) == key;
        assert g(all[j]) == key;
      }
    }
  }

  lemma MembersAppend(g: Grouping, entries: seq<Entry>, e: Entry, key: string)
    ensures Members(g, entries + [e], key) == Members(g, entries, key) + if g(e) == key then [e] else []
  {
    assert (entries + [e])[..|entries|] == entries;
  }

  method GroupEntries(g: Grouping, entries: seq<Entry>) returns (groups: map<string, seq<Entry>>)
    ensures Grouped(g, entries, groups)
  {
    groups := map[];
    for i := 0 to |entries|
      invariant Grouped(g, entries[..i], groups)
    {
      var key := g(entries[i]);
      assert entries[..i + 1] == entries[..i] + [entries[i]];
      GroupedStep(g, entries[..i], entries[i], groups);
      groups := groups[key := (if key in groups then groups[key] else []) + [entries[i]]];
    }
    assert entries[..|entries|] == entries;
  }

  /** The consuming loop over one group. */
  method SliceGroup(digest: TaskDigest, snapshotID: string, x: Index, group: seq<Entry>, limits: Limits) returns (tasks: seq<Task>)
    ensures tasks == TasksOf(digest, snapshotID, x, Slices(group, limits), limits.maxPacketBytes)
  {
    tasks := [];
    var items := group;
    ghost var sliced: seq<seq<Entry>> := [];
    while |items| > 0
      invariant sliced + Slices(items, limits) == Slices(group, limits)
      invariant tasks == TasksOf(digest, snapshotID, x, sliced, limits.maxPacketBytes)
      decreases |items|
    {
      var count, bytes := SliceSize(items, limits);
      GreedySliceUnique(items, limits, count, SliceCount(items, limits));
      var task := MakeTask(digest, snapshotID, x, items[..count], bytes, limits.maxPacketBytes);
      assert sliced + ([items[..count]] + Slices(items[count..], limits)) == sliced + [items[..count]] + Slices(items[count..], limits);
      sliced := sliced + [items[..count]];
      tasks := tasks + [task];
      items := items[count..];
    }
    assert sliced + [] == sliced;
  }

  /** Sort one group and slice it. */
  method SortAndSlice(digest: TaskDigest, snapshotID: string, x: Index, group: seq<Entry>, limits: Limits)
    returns (items: seq<Entry>, tasks: seq<Task>)
    ensures SortedBy(EntryLE, items) && multiset(items) == multiset(group)
    ensures tasks == TasksOf(digest, snapshotID, x, Slices(items, limits), limits.maxPacketBytes)
  {
    EntryOrder();
    items := SortSlice(EntryLE, group);
    tasks := SliceGroup(digest, snapshotID, x, items, limits);
  }

  /** The groups in key order, each sorted and sliced. */
  method SliceAll(digest: TaskDigest, snapshotID: string, x: Index, keys: seq<string>, grouped: map<string, seq<Entry>>, limits: Limits)
    returns (tasks: seq<Task>, ghost groups: seq<seq<Entry>>)
    requires forall key :: key in keys ==> key in grouped
    ensures |groups| == |keys|
    ensures forall i :: 0 <= i < |keys| ==> SortedBy(EntryLE, groups[i]) && multiset(groups[i]) == multiset(grouped[keys[i]])
    ensures tasks == TasksOf(digest, snapshotID, x, AllSlices(groups, limits), limits.maxPacketBytes)
  {
    tasks, groups := [], [];
    for i := 0 to |keys|
      invariant |groups| == i
      invariant forall j :: 0 <= j < i ==> SortedBy(EntryLE, groups[j]) && multiset(groups[j]) == multiset(grouped[keys[j]])
      invariant tasks == TasksOf(digest, snapshotID, x, AllSlices(groups, limits), limits.maxPacketBytes)
    {
      var items, sliced := SortAndSlice(digest, snapshotID, x, grouped[keys[i]], limits);
      TasksOfAppend(digest, snapshotID, x, groups, items, limits);
      groups := groups + [items];
      tasks := tasks + sliced;
    }
  }

  /** Group, sort and slice. */
  method BuildTasks(digest: TaskDigest, snapshotID: string, entries: seq<Entry>, x: Index, limits: Limits)
    returns (tasks: seq<Task>, ghost groups: seq<seq<Entry>>)
    ensures SortedGroups(GroupingOf(x), entries, groups)
    ensures tasks == TasksOf(digest, snapshotID, x, AllSlices(groups, limits), limits.maxPacketBytes)
  {
    var grouped := GroupEntries(GroupingOf(x), entries);
    var keys := SortedSet(grouped.Keys);
    ListingMembers(grouped.Keys);
    tasks, groups := SliceAll(digest, snapshotID, x, keys, grouped, limits);
    GroupsAreSorted(GroupingOf(x), entries, grouped, groups);
  }

  lemma GroupsAreSorted(g: Grouping, entries: seq<Entry>, grouped: map<string, seq<Entry>>, groups: seq<seq<Entry>>)
    requires Grouped(g, entries, grouped)
    requires var keys := Listing(grouped.Keys);
      && |groups| == |keys| && (forall key :: key in keys ==> key in grouped)
      && forall i :: 0 <= i < |keys| ==> SortedBy(EntryLE, groups[i]) && multiset(groups[i]) == multiset(grouped[keys[i]])
    ensures SortedGroups(g, entries, groups)
  {
  }

  lemma TasksOfAppend(digest: TaskDigest, snapshotID: string, x: Index, groups: seq<seq<Entry>>, items: seq<Entry>, limits: Limits)
    ensures TasksOf(digest, snapshotID, x, AllSlices(groups + [items], limits), limits.maxPacketBytes) ==
      TasksOf(digest, snapshotID, x, AllSlices(groups, limits), limits.maxPacketBytes) +
      TasksOf(digest, snapshotID, x, Slices(items, limits), limits.maxPacketBytes)
  {
    assert (groups + [items])[..|groups|] == groups;
  }

  /** Group, sort, slice, count coverage and link. */
  method Build(digest: TaskDigest, snapshotID: string, entries: seq<Entry>, assessment: seq<PathRisk>, contracts: seq<Contract>,
               requested: Limits)
    returns (plan: Plan)
    ensures exists groups :: IsPlan(digest, snapshotID, entries, IndexOf(assessment, contracts), Effective(requested), groups, plan)
  {
    var x := BuildIndex(assessment, contracts);
    var tasks;
    ghost var groups;
    tasks, groups := BuildTasks(digest, snapshotID, entries, x, Effective(requested));
    var coverage := CountCoverage(tasks);
    var cells := new Task[|tasks|](i requires 0 <= i < |tasks| => tasks[i]);
    assert cells[..] == tasks;
    LinkDependencies(cells);
    LinkingKeepsCoverage(coverage, tasks);
    plan := Plan(snapshotID, cells[..], coverage);
    assert IsPlan(digest, snapshotID, entries, x, Effective(requested), groups, plan);
  }

  /** The plan made of some sorted groups of the entries. */
  ghost predicate IsPlan(digest: TaskDigest, snapshotID: string, entries: seq<Entry>, x: Index, limits: Limits,
                         groups: seq<seq<Entry>>, plan: Plan)
  {
    && SortedGroups(GroupingOf(x), entries, groups)
    && plan.snapshotID == snapshotID
    && plan.tasks == PlanTasks(digest, snapshotID, x, groups, limits)
    && Counts(plan.coverage, plan.tasks)
  }

  lemma {:induction false} LinkingKeepsHolders(tasks: seq<Task>, linked: seq<Task>, path: string)
    requires |linked| == |tasks| && forall i :: 0 <= i < |tasks| ==> linked[i].paths == tasks[i].paths
    ensures Holders(linked, path) == Holders(tasks, path)
  {
    if tasks != [] {
      LinkingKeepsHolders(tasks[..|tasks| - 1], linked[..|tasks| - 1], path);
    }
  }

  lemma LinkingKeepsCoverage(coverage: map<string, nat>, tasks: seq<Task>)
    requires Counts(coverage, tasks)
    ensures Counts(coverage, LinkedTasks(tasks))
  {
    var linked := LinkedTasks(tasks);
    assert forall i :: 0 <= i < |tasks| ==> TaskPaths(linked[i]) == TaskPaths(tasks[i]);
    assert AllPaths(linked) == AllPaths(tasks);
    forall p | p in coverage ensures coverage[p] == Holders(linked, p) {
      LinkingKeepsHolders(tasks, linked, p);
    }
  }
}
