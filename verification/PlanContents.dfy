/**
 What the tasks of a plan say, in terms of the inventory, the assessment and the contracts they
 were made from: each path's reference and required coverage, each task's risk, passes, contract
 types and sizes, and which entries share a group.
 */
module PlanContents {
  import opened Ordering
  import opened Planner
  import opened PlannerProofs

  // ----- The two indexes -----

  /** The assessment that counts for a path: the last one. */
  ghost predicate LastAssessed(assessment: seq<PathRisk>, path: string, k: nat)
  {
    k < |assessment| && assessment[k].path == path && forall j :: k < j < |assessment| ==> assessment[j].path != path
  }

  ghost predicate AssessedAt(assessment: seq<PathRisk>, path: string, level: string)
  {
    exists k: nat :: LastAssessed(assessment, path, k) && assessment[k].level == level
  }

  ghost predicate AssessedUnconfirmed(assessment: seq<PathRisk>, path: string)
  {
    exists k: nat :: LastAssessed(assessment, path, k) && assessment[k].needsConfirmation
  }

  lemma {:induction false} IndexedRisk(assessment: seq<PathRisk>, path: string) returns (k: nat)
    ensures path in IndexRisk(assessment) ==> LastAssessed(assessment, path, k) && IndexRisk(assessment)[path] == assessment[k]
    ensures path !in IndexRisk(assessment) ==> forall j :: 0 <= j < |assessment| ==> assessment[j].path != path
  {
    k := 0;
    if assessment != [] {
      var last := |assessment| - 1;
      k := IndexedRisk(assessment[..last], path);
      if assessment[last].path == path {
        k := last;
      }
    }
  }

  lemma RiskIsAssessed(assessment: seq<PathRisk>, contracts: seq<Contract>, path: string)
    ensures var risk := RiskOf(IndexOf(assessment, contracts), path);
      && (forall level :: level != "" ==> (risk.level == level <==> AssessedAt(assessment, path, level)))
      && (risk.needsConfirmation <==> AssessedUnconfirmed(assessment, path))
  {
    var at := IndexedRisk(assessment, path);
    forall k: nat | LastAssessed(assessment, path, k) ensures k == at { }
  }

  /** A contract of this kind is on the path. */
  ghost predicate HasContract(contracts: seq<Contract>, path: string, kind: string)
  {
    exists k :: 0 <= k < |contracts| && contracts[k].path == path && contracts[k].kind == kind
  }

  lemma {:induction false} IndexedTypes(contracts: seq<Contract>, path: string, kind: string)
    ensures path in IndexContracts(contracts) && kind in IndexContracts(contracts)[path] <==> HasContract(contracts, path, kind)
  {
    if contracts != [] {
      var last := |contracts| - 1;
      IndexedTypes(contracts[..last], path, kind);
      assert HasContract(contracts, path, kind) <==>
        HasContract(contracts[..last], path, kind) || (contracts[last].path == path && contracts[last].kind == kind) by {
        if HasContract(contracts[..last], path, kind) {
          var k :| 0 <= k < last && contracts[..last][k].path == path && contracts[..last][k].kind == kind;
          assert contracts[k].path == path;
        }
        if k :| 0 <= k < last && contracts[k].path == path && contracts[k].kind == kind {
          assert contracts[..last][k].path == path;
        }
      }
    }
  }

  // ----- References -----

  /** The kinds of entry that no diff can show. */
  predicate Opaque(kind: string)
  {
    kind in ["binary", "submodule", "lfs_pointer"]
  }

  /** The reference carries the entry's names, hashes and sizes, and asks for full review unless a mechanical check is enough. */
  ghost predicate RefersTo(ref: PathRef, e: Entry, assessment: seq<PathRisk>)
  {
    && ref.scope == e.scope && ref.path == e.path && ref.display == e.display
    && ref.currentHash == e.contentHash && ref.previousHash == e.previousContentHash && ref.bytes == e.size + e.previousSize
    && ref.requiredCoverage ==
         if AssessedAt(assessment, e.path, "L0") && !Opaque(e.kind) then "mechanically_verified" else "fully_reviewed"
  }

  lemma ReferenceSays(assessment: seq<PathRisk>, contracts: seq<Contract>, e: Entry)
    ensures RefersTo(RefOf(IndexOf(assessment, contracts), e), e, assessment)
  {
    RiskIsAssessed(assessment, contracts, e.path);
  }

  // ----- One task -----

  function SizeSum(entries: seq<Entry>): int
  {
    if entries == [] then 0 else entries[0].size + entries[0].previousSize + SizeSum(entries[1..])
  }

  lemma {:induction false} BytesAreSizes(entries: seq<Entry>)
    ensures Bytes(entries) == SizeSum(entries)
  {
    if entries != [] {
      BytesAreSizes(entries[1..]);
      BytesConcat([entries[0]], entries[1..]);
      BytesAppend([], entries[0]);
      assert [entries[0]] + entries[1..] == entries && [] + [entries[0]] == [entries[0]];
    }
  }

  /** Some entry's path is assessed at the level. */
  ghost predicate AnyAt(entries: seq<Entry>, assessment: seq<PathRisk>, level: string)
  {
    exists e :: e in entries && AssessedAt(assessment, e.path, level)
  }

  /** The highest level at which a path of the task is assessed. */
  ghost predicate HighestOf(risk: string, entries: seq<Entry>, assessment: seq<PathRisk>)
  {
    risk ==
      if AnyAt(entries, assessment, "L4") then "L4" else if AnyAt(entries, assessment, "L3") then "L3"
      else if AnyAt(entries, assessment, "L2") then "L2" else if AnyAt(entries, assessment, "L1") then "L1" else "L0"
  }

  lemma {:induction false} RiskIsLevel(x: Index, entries: seq<Entry>)
    ensures TaskRisk(x, entries) in ["L0", "L1", "L2", "L3", "L4"]
  {
    if entries != [] {
      RiskIsLevel(x, entries[..|entries| - 1]);
    }
  }

  ghost predicate AnyRank(x: Index, entries: seq<Entry>, rank: nat)
  {
    exists e :: e in entries && Rank(RiskOf(x, e.path).level) == rank
  }

  lemma AnyAtRank(assessment: seq<PathRisk>, contracts: seq<Contract>, entries: seq<Entry>, level: string, rank: nat)
    requires level != "" && Rank(level) == rank > 0 && forall other :: Rank(other) == rank ==> other == level
    ensures AnyAt(entries, assessment, level) <==> AnyRank(IndexOf(assessment, contracts), entries, rank)
  {
    forall e: Entry
      ensures AssessedAt(assessment, e.path, level) <==> Rank(RiskOf(IndexOf(assessment, contracts), e.path).level) == rank
    {
      RiskIsAssessed(assessment, contracts, e.path);
    }
  }

  lemma OnlyRanks(x: Index, entries: seq<Entry>)
    ensures var r := Rank(TaskRisk(x, entries));
      r <= 4 && (r > 0 ==> AnyRank(x, entries, r)) && forall k :: k > r ==> !AnyRank(x, entries, k)
  {
    RiskIsMaximum(x, entries);
  }

  lemma RiskIsHighest(assessment: seq<PathRisk>, contracts: seq<Contract>, entries: seq<Entry>)
    ensures HighestOf(TaskRisk(IndexOf(assessment, contracts), entries), entries, assessment)
  {
    RiskIsLevel(IndexOf(assessment, contracts), entries);
    OnlyRanks(IndexOf(assessment, contracts), entries);
    AnyAtRank(assessment, contracts, entries, "L1", 1);
    AnyAtRank(assessment, contracts, entries, "L2", 2);
    AnyAtRank(assessment, contracts, entries, "L3", 3);
    AnyAtRank(assessment, contracts, entries, "L4", 4);
  }

  /** The task is about these entries, in this order. */
  ghost predicate ListsEntries(task: Task, entries: seq<Entry>, assessment: seq<PathRisk>)
  {
    |task.paths| == |entries| && forall i :: 0 <= i < |entries| ==> RefersTo(task.paths[i], entries[i], assessment)
  }

  ghost predicate ListsContracts(task: Task, entries: seq<Entry>, contracts: seq<Contract>)
  {
    && SortedBy(StringLE, task.contractTypes) && Distinct(task.contractTypes)
    && forall kind :: kind in task.contractTypes <==> exists e :: e in entries && HasContract(contracts, e.path, kind)
  }

  /** An owner must confirm: a path whose assessment says so, an opaque entry, or a path of the two highest levels. */
  ghost predicate OwnerNeeded(entries: seq<Entry>, assessment: seq<PathRisk>)
  {
    || (exists e :: e in entries && (AssessedUnconfirmed(assessment, e.path) || Opaque(e.kind)))
    || AnyAt(entries, assessment, "L3") || AnyAt(entries, assessment, "L4")
  }

  /** A second pass from the viewpoint of failure and recovery, exactly for a path of the two highest levels. */
  ghost predicate AsksForPasses(task: Task, entries: seq<Entry>, assessment: seq<PathRisk>)
  {
    if AnyAt(entries, assessment, "L3") || AnyAt(entries, assessment, "L4")
    then task.requiredPasses == 2 && task.perspectives == ["correctness", "failure-recovery"]
    else task.requiredPasses == 1 && task.perspectives == ["correctness"]
  }

  /** Everything a task says of its entries. */
  ghost predicate Describes(task: Task, snapshotID: string, entries: seq<Entry>, assessment: seq<PathRisk>, contracts: seq<Contract>, maxBytes: int)
  {
    && task.snapshotID == snapshotID && ListsEntries(task, entries, assessment) && ListsContracts(task, entries, contracts)
    && HighestOf(task.risk, entries, assessment) && AsksForPasses(task, entries, assessment)
    && (task.needsConfirmation <==> OwnerNeeded(entries, assessment))
    && task.totalBytes == SizeSum(entries) && (task.oversized <==> SizeSum(entries) > maxBytes)
  }

  lemma TypesAreContracts(assessment: seq<PathRisk>, contracts: seq<Contract>, entries: seq<Entry>, kind: string)
    ensures kind in TaskTypes(IndexOf(assessment, contracts), entries) <==> exists e :: e in entries && HasContract(contracts, e.path, kind)
  {
    var x := IndexOf(assessment, contracts);
    forall path ensures kind in TypesOf(x, path) <==> HasContract(contracts, path, kind) {
      IndexedTypes(contracts, path, kind);
    }
    if kind in TaskTypes(x, entries) {
      var i :| 0 <= i < |entries| && kind in TypesOf(x, entries[i].path);
      assert entries[i] in entries;
    }
    if e :| e in entries && HasContract(contracts, e.path, kind) {
      var i :| 0 <= i < |entries| && entries[i] == e;
      assert kind in TypesOf(x, entries[i].path);
    }
  }

  lemma OwnerIsNeeded(assessment: seq<PathRisk>, contracts: seq<Contract>, entries: seq<Entry>)
    ensures var x := IndexOf(assessment, contracts);
      AnyUnconfirmed(x, entries) || RequiresOwner(TaskRisk(x, entries)) <==> OwnerNeeded(entries, assessment)
  {
    var x := IndexOf(assessment, contracts);
    RiskIsHighest(assessment, contracts, entries);
    forall path ensures RiskOf(x, path).needsConfirmation <==> AssessedUnconfirmed(assessment, path) {
      RiskIsAssessed(assessment, contracts, path);
    }
    if AnyUnconfirmed(x, entries) {
      var i :| 0 <= i < |entries| && (RiskOf(x, entries[i].path).needsConfirmation || IsOpaqueKind(entries[i].kind));
      assert entries[i] in entries;
    }
    if e :| e in entries && (AssessedUnconfirmed(assessment, e.path) || Opaque(e.kind)) {
      var i :| 0 <= i < |entries| && entries[i] == e;
    }
  }

  lemma TaskLists(assessment: seq<PathRisk>, contracts: seq<Contract>, entries: seq<Entry>, task: Task)
    requires task.paths == RefsOf(IndexOf(assessment, contracts), entries)
    ensures ListsEntries(task, entries, assessment)
  {
    forall i | 0 <= i < |entries| ensures RefersTo(task.paths[i], entries[i], assessment) {
      ReferenceSays(assessment, contracts, entries[i]);
    }
  }

  lemma TypesListed(assessment: seq<PathRisk>, contracts: seq<Contract>, entries: seq<Entry>, task: Task)
    requires task.contractTypes == Listing(TaskTypes(IndexOf(assessment, contracts), entries))
    ensures ListsContracts(task, entries, contracts)
  {
    var types := TaskTypes(IndexOf(assessment, contracts), entries);
    ListingOf(types);
    ListingMembers(types);
    forall kind ensures kind in task.contractTypes <==> exists e :: e in entries && HasContract(contracts, e.path, kind) {
      TypesAreContracts(assessment, contracts, entries, kind);
    }
  }

  lemma PassesAsked(assessment: seq<PathRisk>, contracts: seq<Contract>, entries: seq<Entry>, task: Task)
    requires var owner := RequiresOwner(TaskRisk(IndexOf(assessment, contracts), entries));
      && task.requiredPasses == (if owner then 2 else 1)
      && task.perspectives == if owner then ["correctness", "failure-recovery"] else ["correctness"]
    ensures AsksForPasses(task, entries, assessment)
  {
    RiskIsHighest(assessment, contracts, entries);
  }

  lemma TaskFields(digest: TaskDigest, snapshotID: string, x: Index, entries: seq<Entry>, maxBytes: int)
    ensures var task := TaskOf(digest, snapshotID, x, entries, maxBytes);
      && task.snapshotID == snapshotID && task.risk == TaskRisk(x, entries) && task.paths == RefsOf(x, entries)
      && task.contractTypes == Listing(TaskTypes(x, entries)) && task.totalBytes == Bytes(entries)
      && task.oversized == (Bytes(entries) > maxBytes)
      && task.needsConfirmation == (AnyUnconfirmed(x, entries) || RequiresOwner(TaskRisk(x, entries)))
      && task.requiredPasses == (if RequiresOwner(TaskRisk(x, entries)) then 2 else 1)
      && task.perspectives == if RequiresOwner(TaskRisk(x, entries)) then ["correctness", "failure-recovery"] else ["correctness"]
  {
  }

  lemma TaskDescribes(digest: TaskDigest, snapshotID: string, assessment: seq<PathRisk>, contracts: seq<Contract>, entries: seq<Entry>, maxBytes: int)
    ensures Describes(TaskOf(digest, snapshotID, IndexOf(assessment, contracts), entries, maxBytes), snapshotID, entries, assessment, contracts, maxBytes)
  {
    var x := IndexOf(assessment, contracts);
    var task := TaskOf(digest, snapshotID, x, entries, maxBytes);
    TaskFields(digest, snapshotID, x, entries, maxBytes);
    TaskLists(assessment, contracts, entries, task);
    TypesListed(assessment, contracts, entries, task);
    PassesAsked(assessment, contracts, entries, task);
    RiskIsHighest(assessment, contracts, entries);
    OwnerIsNeeded(assessment, contracts, entries);
    BytesAreSizes(entries);
  }

  /** The entries of one task of a plan. */
  function SliceAt(groups: seq<seq<Entry>>, limits: Limits, i: nat): seq<Entry>
    requires i < |AllSlices(groups, limits)|
  {
    AllSlices(groups, limits)[i]
  }

  /** Each task of a plan describes its own entries, which none of the others has. */
  lemma PlanDescribes(digest: TaskDigest, snapshotID: string, entries: seq<Entry>, assessment: seq<PathRisk>, contracts: seq<Contract>,
                      requested: Limits, groups: seq<seq<Entry>>, plan: Plan, i: nat)
    requires IsPlan(digest, snapshotID, entries, IndexOf(assessment, contracts), Effective(requested), groups, plan) && i < |plan.tasks|
    ensures i < |AllSlices(groups, Effective(requested))|
    ensures Describes(plan.tasks[i], snapshotID, SliceAt(groups, Effective(requested), i), assessment, contracts,
                      if requested.maxPacketBytes < 1 then 250000 else requested.maxPacketBytes)
  {
    var x, limits := IndexOf(assessment, contracts), Effective(requested);
    var slice := SliceAt(groups, limits, i);
    TaskDescribes(digest, snapshotID, assessment, contracts, slice, limits.maxPacketBytes);
    var task := TaskOf(digest, snapshotID, x, slice, limits.maxPacketBytes);
    assert plan.tasks[i] == task.(dependencyTasks := plan.tasks[i].dependencyTasks);
    DependenciesAside(task, plan.tasks[i].dependencyTasks, snapshotID, slice, assessment, contracts, limits.maxPacketBytes);
  }

  lemma DependenciesAside(task: Task, dependencies: seq<string>, snapshotID: string, entries: seq<Entry>, assessment: seq<PathRisk>,
                          contracts: seq<Contract>, maxBytes: int)
    requires Describes(task, snapshotID, entries, assessment, contracts, maxBytes)
    ensures Describes(task.(dependencyTasks := dependencies), snapshotID, entries, assessment, contracts, maxBytes)
  {
  }

  // ----- Groups -----

  /** The directory at the top of a path, in either notation; a dot for a path without one. */
  ghost predicate TopDirectory(path: string, top: string)
  {
    if exists i :: 0 <= i < |path| && path[i] in "/\\" then
      exists i :: 0 <= i < |path| && path[i] in "/\\" && (forall j :: 0 <= j < i ==> path[j] !in "/\\") && top == path[..i]
    else top == "."
  }

  lemma GroupIsTop(path: string)
    ensures TopDirectory(path, FilepathGroup(path))
  {
    if exists i :: 0 <= i < |path| && path[i] in "/\\" {
      var n := FirstSlash(path);
      assert IsSlash(path[n]) && forall j :: 0 <= j < n ==> !IsSlash(path[j]);
    }
  }

  lemma {:induction false} FirstSlash(path: string) returns (n: nat)
    requires exists i :: 0 <= i < |path| && path[i] in "/\\"
    ensures n < |path| && path[n] in "/\\" && forall j :: 0 <= j < n ==> path[j] !in "/\\"
  {
    if path[0] in "/\\" {
      n := 0;
    } else {
      var i :| 0 <= i < |path| && path[i] in "/\\";
      assert path[1..][i - 1] == path[i];
      var k := FirstSlash(path[1..]);
      n := k + 1;
    }
  }

  /** Names of levels and contract kinds that the group's name can hold apart. */
  ghost predicate CleanNames(assessment: seq<PathRisk>, contracts: seq<Contract>)
  {
    && (forall k :: 0 <= k < |assessment| ==> '|' !in assessment[k].level)
    && forall k :: 0 <= k < |contracts| ==> CleanKind(contracts[k].kind)
  }

  predicate CleanKind(kind: string)
  {
    kind != "" && ',' !in kind && '|' !in kind
  }

  /** The two entries are assessed alike, have the same kinds of contracts, and without any lie below the same directory. */
  ghost predicate SameGroup(a: Entry, b: Entry, assessment: seq<PathRisk>, contracts: seq<Contract>)
  {
    && (forall level :: level != "" ==> (AssessedAt(assessment, a.path, level) <==> AssessedAt(assessment, b.path, level)))
    && (forall kind :: HasContract(contracts, a.path, kind) <==> HasContract(contracts, b.path, kind))
    && ((forall kind :: !HasContract(contracts, a.path, kind)) ==>
          exists top :: TopDirectory(a.display, top) && TopDirectory(b.display, top))
  }

  lemma FirstCut(a: string, x: string, b: string, y: string, c: char)
    requires c !in a && c !in b && a + [c] + x == b + [c] + y
    ensures a == b && x == y
  {
    var s, t := a + [c] + x, b + [c] + y;
    assert s[|a|] == c && t[|b|] == c;
    assert forall i :: 0 <= i < |a| ==> s[i] == a[i];
    assert forall i :: 0 <= i < |b| ==> t[i] == b[i];
    assert |a| == |b|;
    assert a == s[..|a|] == t[..|b|] == b;
    assert x == s[|a| + 1..] == t[|b| + 1..] == y;
  }

  ghost predicate CleanKinds(kinds: seq<string>)
  {
    forall i :: 0 <= i < |kinds| ==> CleanKind(kinds[i])
  }

  lemma {:induction false} JoinedIsClean(kinds: seq<string>)
    requires CleanKinds(kinds) && kinds != []
    ensures var s := Join(kinds, ","); s != "" && '|' !in s && (',' in s <==> |kinds| > 1)
  {
    if |kinds| > 1 {
      JoinedIsClean(kinds[1..]);
      var s := Join(kinds, ",");
      assert s == kinds[0] + "," + Join(kinds[1..], ",");
      assert s[|kinds[0]|] == ',';
    }
  }

  lemma {:induction false} JoinInjective(a: seq<string>, b: seq<string>)
    requires CleanKinds(a) && CleanKinds(b) && a != [] && b != [] && Join(a, ",") == Join(b, ",")
    ensures a == b
    decreases |a|
  {
    JoinedIsClean(a);
    JoinedIsClean(b);
    if |a| > 1 {
      FirstCut(a[0], Join(a[1..], ","), b[0], Join(b[1..], ","), ',');
      JoinInjective(a[1..], b[1..]);
      assert a == [a[0]] + a[1..] && b == [b[0]] + b[1..];
    }
  }

  /** The kinds of contracts on a path, as the group's name lists them. */
  lemma KindsListed(assessment: seq<PathRisk>, contracts: seq<Contract>, path: string)
    requires CleanNames(assessment, contracts)
    ensures var kinds := Unique(TypesOf(IndexOf(assessment, contracts), path));
      CleanKinds(kinds) && forall kind :: kind in kinds <==> HasContract(contracts, path, kind)
  {
    var types := TypesOf(IndexOf(assessment, contracts), path);
    SortedStringsElements(Dedup(types));
    forall kind ensures kind in Unique(types) <==> HasContract(contracts, path, kind) {
      assert kind in types <==> kind in Elements(types);
      assert kind in Dedup(types) <==> kind in Elements(Dedup(types));
      IndexedTypes(contracts, path, kind);
    }
    forall i | 0 <= i < |Unique(types)| ensures CleanKind(Unique(types)[i]) {
      assert Unique(types)[i] in Unique(types);
    }
  }

  lemma LevelIsClean(assessment: seq<PathRisk>, contracts: seq<Contract>, path: string)
    requires CleanNames(assessment, contracts)
    ensures '|' !in RiskOf(IndexOf(assessment, contracts), path).level
  {
    var k := IndexedRisk(assessment, path);
  }

  lemma UniqueOfSame(a: seq<string>, b: seq<string>)
    requires forall kind :: kind in Unique(a) <==> kind in Unique(b)
    ensures Unique(a) == Unique(b)
  {
    SortedStringsElements(Dedup(a));
    SortedStringsElements(Dedup(b));
    forall kind ensures kind in Elements(Dedup(a)) <==> kind in Elements(Dedup(b)) {
      assert kind in Unique(a) <==> kind in Dedup(a);
      assert kind in Unique(b) <==> kind in Dedup(b);
    }
    assert Elements(Dedup(a)) == Elements(Dedup(b));
    SameElementsSort(Dedup(a), Dedup(b));
  }

  lemma SameElementsSort(a: seq<string>, b: seq<string>)
    requires Distinct(a) && Distinct(b) && Elements(a) == Elements(b)
    ensures SortedStrings(a) == SortedStrings(b)
  {
    ListingUnique(Elements(a), a);
    ListingUnique(Elements(a), b);
  }

  lemma TopIsOne(path: string, top: string)
    requires TopDirectory(path, top)
    ensures top == FilepathGroup(path)
  {
    GroupIsTop(path);
  }

  /** What a group's name is made of. */
  function NameOf(level: string, kinds: seq<string>, top: string): string
  {
    level + "|" + Join(kinds, ",") + if kinds == [] then "|" + top else ""
  }

  lemma NameTail(level: string, kinds: seq<string>, top: string)
    ensures NameOf(level, kinds, top) == level + ['|'] + (Join(kinds, ",") + if kinds == [] then "|" + top else "")
  {
  }

  lemma NamesApart(level: string, kinds: seq<string>, top: string, level': string, kinds': seq<string>, top': string)
    requires '|' !in level && '|' !in level' && CleanKinds(kinds) && CleanKinds(kinds')
    requires NameOf(level, kinds, top) == NameOf(level', kinds', top')
    ensures level == level' && kinds == kinds' && (kinds == [] ==> top == top')
  {
    var x, y := Join(kinds, ",") + (if kinds == [] then "|" + top else ""), Join(kinds', ",") + if kinds' == [] then "|" + top' else "";
    NameTail(level, kinds, top);
    NameTail(level', kinds', top');
    FirstCut(level, x, level', y, '|');
    if kinds != [] { JoinedIsClean(kinds); }
    if kinds' != [] { JoinedIsClean(kinds'); }
    assert kinds == [] <==> x[0] == '|';
    assert kinds' == [] <==> y[0] == '|';
    if kinds == [] {
      assert x == "|" + top && y == "|" + top' && x[1..] == top && y[1..] == top';
    } else {
      assert x == Join(kinds, ",") && y == Join(kinds', ",");
      JoinInjective(kinds, kinds');
    }
  }

  lemma KeyIsName(x: Index, e: Entry)
    ensures GroupKey(x, e) == NameOf(RiskOf(x, e.path).level, Unique(TypesOf(x, e.path)), FilepathGroup(e.display))
  {
  }

  /** Entries fall into one group exactly when they are assessed alike, have the same contracts, and without any lie below one directory. */
  lemma GroupsAreAlike(assessment: seq<PathRisk>, contracts: seq<Contract>, a: Entry, b: Entry)
    requires CleanNames(assessment, contracts)
    ensures var x := IndexOf(assessment, contracts);
      GroupKey(x, a) == GroupKey(x, b) <==> SameGroup(a, b, assessment, contracts)
  {
    var x := IndexOf(assessment, contracts);
    KeyIsName(x, a);
    KeyIsName(x, b);
    KindsListed(assessment, contracts, a.path);
    KindsListed(assessment, contracts, b.path);
    LevelIsClean(assessment, contracts, a.path);
    LevelIsClean(assessment, contracts, b.path);
    RiskIsAssessed(assessment, contracts, a.path);
    RiskIsAssessed(assessment, contracts, b.path);
    GroupIsTop(a.display);
    GroupIsTop(b.display);
    if GroupKey(x, a) == GroupKey(x, b) {
      NamesApart(RiskOf(x, a.path).level, Unique(TypesOf(x, a.path)), FilepathGroup(a.display),
                 RiskOf(x, b.path).level, Unique(TypesOf(x, b.path)), FilepathGroup(b.display));
      NoKinds(assessment, contracts, a.path);
    }
    if SameGroup(a, b, assessment, contracts) {
      UniqueOfSame(TypesOf(x, a.path), TypesOf(x, b.path));
      NoKinds(assessment, contracts, a.path);
      if Unique(TypesOf(x, a.path)) == [] {
        var top :| TopDirectory(a.display, top) && TopDirectory(b.display, top);
        TopIsOne(a.display, top);
        TopIsOne(b.display, top);
      }
      SameLevel(assessment, contracts, a, b);
    }
  }

  lemma NoKinds(assessment: seq<PathRisk>, contracts: seq<Contract>, path: string)
    requires CleanNames(assessment, contracts)
    ensures Unique(TypesOf(IndexOf(assessment, contracts), path)) == [] <==> forall kind :: !HasContract(contracts, path, kind)
  {
    var kinds := Unique(TypesOf(IndexOf(assessment, contracts), path));
    KindsListed(assessment, contracts, path);
    if kinds != [] { assert kinds[0] in kinds; }
  }

  lemma SameLevel(assessment: seq<PathRisk>, contracts: seq<Contract>, a: Entry, b: Entry)
    requires SameGroup(a, b, assessment, contracts)
    ensures var x := IndexOf(assessment, contracts); RiskOf(x, a.path).level == RiskOf(x, b.path).level
  {
    var x := IndexOf(assessment, contracts);
    var here, there := RiskOf(x, a.path).level, RiskOf(x, b.path).level;
    RiskIsAssessed(assessment, contracts, a.path);
    RiskIsAssessed(assessment, contracts, b.path);
    assert here != "" ==> AssessedAt(assessment, a.path, here) && AssessedAt(assessment, b.path, here);
    assert there != "" ==> AssessedAt(assessment, b.path, there) && AssessedAt(assessment, a.path, there);
  }

  lemma {:induction false} SliceInGroup(groups: seq<seq<Entry>>, limits: Limits, i: nat) returns (j: nat)
    requires i < |AllSlices(groups, limits)|
    ensures j < |groups| && forall e :: e in AllSlices(groups, limits)[i] ==> e in groups[j]
    ensures SortedBy(EntryLE, groups[j]) ==> SortedBy(EntryLE, AllSlices(groups, limits)[i])
    decreases |groups|
  {
    var last := |groups| - 1;
    var before := AllSlices(groups[..last], limits);
    if i < |before| {
      j := SliceInGroup(groups[..last], limits, i);
    } else {
      j := last;
      SliceInItems(groups[last], limits, i - |before|);
      SliceSorted(groups[last], limits, i - |before|);
    }
  }

  lemma {:induction false} SliceSorted(items: seq<Entry>, limits: Limits, i: nat)
    requires i < |Slices(items, limits)|
    ensures SortedBy(EntryLE, items) ==> SortedBy(EntryLE, Slices(items, limits)[i])
    decreases |items|
  {
    var n := SliceCount(items, limits);
    if i == 0 {
      PartSorted(items, 0, n);
      assert items[0..n] == items[..n];
    } else {
      SliceSorted(items[n..], limits, i - 1);
      PartSorted(items, n, |items|);
      assert items[n..|items|] == items[n..];
    }
  }

  lemma PartSorted(items: seq<Entry>, a: nat, b: nat)
    requires a <= b <= |items|
    ensures SortedBy(EntryLE, items) ==> SortedBy(EntryLE, items[a..b])
  {
    var part := items[a..b];
    assert forall k :: 0 <= k < |part| ==> part[k] == items[a + k];
  }

  lemma {:induction false} SliceInItems(items: seq<Entry>, limits: Limits, i: nat)
    requires i < |Slices(items, limits)|
    ensures forall e :: e in Slices(items, limits)[i] ==> e in items
    decreases |items|
  {
    var n := SliceCount(items, limits);
    if i > 0 {
      SliceInItems(items[n..], limits, i - 1);
      assert forall e :: e in items[n..] ==> e in items;
    }
  }

  lemma SliceSharesKey(g: Grouping, entries: seq<Entry>, groups: seq<seq<Entry>>, limits: Limits, i: nat, a: Entry, b: Entry)
    requires SortedGroups(g, entries, groups) && i < |AllSlices(groups, limits)| && a in SliceAt(groups, limits, i)
    ensures b in SliceAt(groups, limits, i) ==> g(a) == g(b)
    ensures i + 1 < |AllSlices(groups, limits)| && SliceAt(groups, limits, i + 1) != [] && b == SliceAt(groups, limits, i + 1)[0] ==>
      g(a) != g(b) || Overflows(SliceAt(groups, limits, i), b, limits)
  {
    var keys := Listing(GroupKeys(g, entries));
    var j := SliceInGroup(groups, limits, i);
    MembersAreOfKey(g, entries, keys[j], groups[j], a);
    if b in SliceAt(groups, limits, i) {
      MembersAreOfKey(g, entries, keys[j], groups[j], b);
    }
    if i + 1 < |AllSlices(groups, limits)| {
      ConsecutiveSlices(g, entries, groups, limits, i);
      MembersAreOfKey(g, entries, keys[j], groups[j], SliceAt(groups, limits, i)[0]);
    }
  }

  /** The entries of one task belong to one group, and a task begins another group or a path that would have broken a limit. */
  lemma TasksKeepGroups(digest: TaskDigest, snapshotID: string, entries: seq<Entry>, assessment: seq<PathRisk>, contracts: seq<Contract>,
                        limits: Limits, groups: seq<seq<Entry>>, plan: Plan, i: nat, a: Entry, b: Entry)
    requires IsPlan(digest, snapshotID, entries, IndexOf(assessment, contracts), limits, groups, plan) && CleanNames(assessment, contracts)
    requires i < |AllSlices(groups, limits)| && a in SliceAt(groups, limits, i)
    ensures b in SliceAt(groups, limits, i) ==> SameGroup(a, b, assessment, contracts)
    ensures i + 1 < |AllSlices(groups, limits)| && SliceAt(groups, limits, i + 1) != [] && b == SliceAt(groups, limits, i + 1)[0] ==>
      !SameGroup(a, b, assessment, contracts) || Overflows(SliceAt(groups, limits, i), b, limits)
  {
    SliceSharesKey(GroupingOf(IndexOf(assessment, contracts)), entries, groups, limits, i, a, b);
    GroupsAreAlike(assessment, contracts, a, b);
  }

  /** A task lists its references by path and, for one path, by scope. */
  lemma ReferencesInOrder(digest: TaskDigest, snapshotID: string, entries: seq<Entry>, assessment: seq<PathRisk>, contracts: seq<Contract>,
                          requested: Limits, groups: seq<seq<Entry>>, plan: Plan, i: nat)
    requires IsPlan(digest, snapshotID, entries, IndexOf(assessment, contracts), Effective(requested), groups, plan) && i < |plan.tasks|
    ensures var refs := plan.tasks[i].paths;
      forall j, k :: 0 <= j < k < |refs| ==>
        if refs[j].path == refs[k].path then StringLE(refs[j].scope, refs[k].scope) else StringLE(refs[j].path, refs[k].path)
  {
    var limits := Effective(requested);
    PlanDescribes(digest, snapshotID, entries, assessment, contracts, requested, groups, plan, i);
    var n := SliceInGroup(groups, limits, i);
    var g := GroupingOf(IndexOf(assessment, contracts));
    assert SortedGroup(g, entries, Listing(GroupKeys(g, entries))[n], groups[n]);
    ListedInOrder(plan.tasks[i], SliceAt(groups, limits, i), assessment);
  }

  lemma ListedInOrder(task: Task, entries: seq<Entry>, assessment: seq<PathRisk>)
    requires ListsEntries(task, entries, assessment) && SortedBy(EntryLE, entries)
    ensures var refs := task.paths;
      forall j, k :: 0 <= j < k < |refs| ==>
        if refs[j].path == refs[k].path then StringLE(refs[j].scope, refs[k].scope) else StringLE(refs[j].path, refs[k].path)
  {
    var refs := task.paths;
    forall j, k | 0 <= j < k < |refs|
      ensures if refs[j].path == refs[k].path then StringLE(refs[j].scope, refs[k].scope) else StringLE(refs[j].path, refs[k].path)
    {
      assert RefersTo(refs[j], entries[j], assessment) && RefersTo(refs[k], entries[k], assessment);
      assert EntryLE(entries[j], entries[k]);
    }
  }
}
