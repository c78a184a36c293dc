/** A `ready` verdict is sound end to end. */
module ReadyProofs {
  import opened Common
  import opened Ordering
  import opened Planner
  import opened IndexContents
  import opened PlanContents
  import opened PlannerProofs
  import opened Results
  import opened ResultIndex
  import opened Verification
  import Findings
  import GateRunner
  import Reporting

  ghost predicate NulFree(entries: seq<Entry>)
  {
    forall e :: e in entries ==> '\0' !in e.scope && '\0' !in e.path
  }

  /** The one task that holds an entry. */
  ghost predicate HoldsEntry(tasks: seq<Task>, x: Planner.Index, e: Entry, i: nat)
  {
    i < |tasks| && RefOf(x, e) in tasks[i].paths && forall j :: 0 <= j < |tasks| && RefOf(x, e) in tasks[j].paths ==> j == i
  }

  lemma {:induction false} SliceClean(entries: seq<Entry>, slices: seq<seq<Entry>>, x: Planner.Index, i: nat)
    requires multiset(Flatten(slices)) == multiset(entries) && DistinctKeys(entries) && NulFree(entries) && i < |slices|
    ensures CleanPaths(RefsOf(x, slices[i]))
  {
    var slice := slices[i];
    forall k | 0 <= k < |slice| ensures slice[k] in entries {
      FlattenHolds(slices, i, slice[k]);
      assert slice[k] in multiset(entries);
    }
    forall a, b | 0 <= a < b < |slice| ensures slice[a] != slice[b] {
      SliceDistinct(entries, slices, i, a, b);
    }
  }

  lemma {:induction false} FlattenCounts(lists: seq<seq<Entry>>, i: nat, e: Entry)
    requires i < |lists|
    ensures multiset(lists[i])[e] <= multiset(Flatten(lists))[e]
    decreases |lists|
  {
    var last := |lists| - 1;
    if i < last {
      FlattenCounts(lists[..last], i, e);
    }
  }

  lemma SliceDistinct(entries: seq<Entry>, slices: seq<seq<Entry>>, i: nat, a: nat, b: nat)
    requires multiset(Flatten(slices)) == multiset(entries) && Distinct(entries) && i < |slices| && a < b < |slices[i]|
    ensures slices[i][a] != slices[i][b]
  {
    var slice, e := slices[i], slices[i][a];
    DistinctMultiset(entries);
    DistinctMultiset(slice);
    forall y | y in multiset(slice) ensures multiset(slice)[y] == 1 {
      FlattenCounts(slices, i, y);
      assert y in multiset(entries);
    }
  }

  /** Each changed entry lies in exactly one task of the plan, and no two references of a task are alike. */
  lemma EntryHasItsTask(c: Case, groups: seq<seq<Entry>>, e: Entry) returns (i: nat)
    requires Verified(c, groups) && DistinctKeys(c.entries) && NulFree(c.entries) && e in c.entries
    ensures HoldsEntry(c.storedPlan.tasks, IndexOf(c.assessment, c.contracts), e, i)
    ensures CleanPaths(c.storedPlan.tasks[i].paths)
  {
    var x, limits := IndexOf(c.assessment, c.contracts), Effective(c.limits);
    var slices := AllSlices(groups, limits);
    i := EachEntryInOneTask(GroupingOf(x), c.entries, groups, limits, e);
    PlanPartitions(GroupingOf(x), c.entries, groups, limits);
    SliceClean(c.entries, slices, x, i);
    TaskHoldsSlice(c.digest, c.snapshotID, x, groups, limits, i);
    var k :| 0 <= k < |slices[i]| && slices[i][k] == e;
    assert RefsOf(x, slices[i])[k] == RefOf(x, e);
    forall j | 0 <= j < |c.storedPlan.tasks| && RefOf(x, e) in c.storedPlan.tasks[j].paths ensures j == i {
      TaskHoldsSlice(c.digest, c.snapshotID, x, groups, limits, j);
      HeldEntry(c.entries, slices, x, j, e);
    }
  }

  lemma HeldEntry(entries: seq<Entry>, slices: seq<seq<Entry>>, x: Planner.Index, j: nat, e: Entry)
    requires multiset(Flatten(slices)) == multiset(entries) && DistinctKeys(entries) && e in entries
    requires j < |slices| && RefOf(x, e) in RefsOf(x, slices[j])
    ensures e in slices[j]
  {
    var k :| 0 <= k < |slices[j]| && RefsOf(x, slices[j])[k] == RefOf(x, e);
    var other := slices[j][k];
    FlattenHolds(slices, j, other);
    assert other in multiset(entries);
    assert other.scope == e.scope && other.path == e.path;
  }

  lemma {:induction false} TaskByIDFinds(tasks: seq<Task>, i: nat)
    requires i < |tasks| && forall a, b :: 0 <= a < b < |tasks| ==> tasks[a].id != tasks[b].id
    ensures tasks[i].id in TaskByID(tasks) && TaskByID(tasks)[tasks[i].id] == tasks[i]
  {
    if i < |tasks| - 1 {
      TaskByIDFinds(tasks[..|tasks| - 1], i);
    }
  }

  /** The status is enough: full review, or for an entry assessed at the lowest level that a diff can show, a mechanical check. */
  ghost predicate Enough(c: Case, e: Entry, status: string)
  {
    if AssessedAt(c.assessment, e.path, "L0") && !Opaque(e.kind)
    then status in ["mechanically_verified", "invariant_checked", "fully_reviewed"]
    else status == "fully_reviewed"
  }

  /** A stored, completed, validated result of this perspective has an item for the entry, with evidence and a status that is enough. */
  ghost predicate EntryCovered(c: Case, task: Task, perspective: string, e: Entry, r: Review)
  {
    && ReviewedBy(c.stored, c.index, task, perspective, r) && r.coverage.Some?
    && exists item :: item in r.coverage.value && item.scope == e.scope && item.path == e.path && item.evidence != "" && Enough(c, e, item.status)
  }

  lemma PerspectiveCoversEntry(c: Case, groups: seq<seq<Entry>>, e: Entry, i: nat, perspective: string) returns (r: Review)
    requires Verified(c, groups) && DistinctKeys(c.entries) && TasksDoNotCollide(c.digest, c.storedPlan.tasks)
    requires Complete(Items(c.index), c.storedPlan.tasks)
    requires HoldsEntry(c.storedPlan.tasks, IndexOf(c.assessment, c.contracts), e, i) && CleanPaths(c.storedPlan.tasks[i].paths)
    requires perspective in c.storedPlan.tasks[i].perspectives
    ensures EntryCovered(c, c.storedPlan.tasks[i], perspective, e, r)
  {
    var x, tasks := IndexOf(c.assessment, c.contracts), c.storedPlan.tasks;
    forall a, b | 0 <= a < b < |tasks| ensures tasks[a].id != tasks[b].id {
      TaskIDsDistinct(c.digest, c.snapshotID, c.entries, x, Effective(c.limits), groups, c.storedPlan, a, b);
    }
    TaskByIDFinds(tasks, i);
    r := EachPerspectiveReviewed(c.stored, TaskByID(tasks), c.index, tasks[i], perspective);
    CompletedCoversEntry(c, tasks[i], e, r);
  }

  lemma CompletedCoversEntry(c: Case, task: Task, e: Entry, r: Review)
    requires c.stored.packet(task).Some? && CleanPaths(task.paths) && RefOf(IndexOf(c.assessment, c.contracts), e) in task.paths
    requires Accepted(r, task, c.stored.packet(task).value.inputHash, c.stored.packet(task).value.promptDigest) && r.status == "completed"
    ensures exists item :: item in r.coverage.value && item.scope == e.scope && item.path == e.path && item.evidence != "" && Enough(c, e, item.status)
  {
    var packet, ref := c.stored.packet(task).value, RefOf(IndexOf(c.assessment, c.contracts), e);
    ReferenceSays(c.assessment, c.contracts, e);
    CompletedCoversEveryPath(r, task, packet.inputHash, packet.promptDigest);
    var k :| 0 <= k < |task.paths| && task.paths[k] == ref;
    var item :| item in r.coverage.value && Covers(item, task.paths[k]);
  }

  /** The last item recorded for the gate is of this snapshot, plan and definition, of a final run where the gate asks for one, and it passed. */
  ghost predicate GatePassed(c: Case, gate: GateRunner.Expanded)
  {
    exists k: nat :: Certifies(c.expectedGates, c.snapshotID, gate, c.recorded, k) && c.recorded[k].status == "pass"
  }

  /** Only blocking gates count for the verdict, and they count as passed exactly when certified so. */
  lemma BlockingGatesPassed(c: Case)
    ensures (forall g :: g in InputOf(c).gates ==> g.blocking ==> g.status == "pass") <==>
      forall i :: 0 <= i < |c.expectedGates.gates| && c.expectedGates.gates[i].blocking ==> GatePassed(c, c.expectedGates.gates[i])
  {
    var statuses := Statuses(c.expectedGates, c.snapshotID, c.recorded);
    forall i | 0 <= i < |c.expectedGates.gates|
      ensures statuses[i].blocking == c.expectedGates.gates[i].blocking
      ensures statuses[i].status == "pass" <==> GatePassed(c, c.expectedGates.gates[i])
    {
      StatusIsCertified(c.expectedGates, c.snapshotID, c.recorded, i);
    }
    forall i | 0 <= i < |statuses| ensures statuses[i] in InputOf(c).gates { }
  }

  /** Every recorded result has settled all its open questions. */
  lemma NoOpenQuestions(c: Case, groups: seq<seq<Entry>>, record: Record)
    requires Verified(c, groups) && Reporting.Ready(InputOf(c)) && record in Items(c.index)
    ensures record.resultPath in c.stored.files && c.stored.files[record.resultPath].needsConfirmation == Some([])
  {
    var records := Items(c.index);
    var i :| 0 <= i < |records| && records[i] == record;
    assert RecordVerified(c.stored, TaskByID(c.storedPlan.tasks), records[i]);
    NoConfirmations(c.stored.files, records, i);
  }

  /** The task has a reference to the entry, and no other task has one to its scope and path. */
  ghost predicate OnlyTaskOf(c: Case, e: Entry, i: nat)
  {
    && i < |c.storedPlan.tasks| && (exists ref :: ref in c.storedPlan.tasks[i].paths && RefersTo(ref, e, c.assessment))
    && forall j, ref :: 0 <= j < |c.storedPlan.tasks| && ref in c.storedPlan.tasks[j].paths && ref.scope == e.scope && ref.path == e.path ==> j == i
  }

  /** The changed entry has one task, and each of that task's perspectives, at least one, covers it. */
  ghost predicate EntryReviewed(c: Case, e: Entry)
  {
    exists i: nat :: OnlyTaskOf(c, e, i) && PerspectivesCover(c, c.storedPlan.tasks[i], e)
  }

  ghost predicate PerspectivesCover(c: Case, task: Task, e: Entry)
  {
    "correctness" in task.perspectives && forall p :: p in task.perspectives ==> PerspectiveCovers(c, task, e, p)
  }

  lemma HeldIsOnlyTask(c: Case, groups: seq<seq<Entry>>, e: Entry, i: nat)
    requires Verified(c, groups) && DistinctKeys(c.entries) && e in c.entries
    requires HoldsEntry(c.storedPlan.tasks, IndexOf(c.assessment, c.contracts), e, i)
    ensures OnlyTaskOf(c, e, i)
  {
    var x, tasks := IndexOf(c.assessment, c.contracts), c.storedPlan.tasks;
    ReferenceSays(c.assessment, c.contracts, e);
    forall j, ref | 0 <= j < |tasks| && ref in tasks[j].paths && ref.scope == e.scope && ref.path == e.path ensures j == i {
      var other := ReferredEntry(c, groups, j, ref);
      assert other == e;
    }
  }

  /** A reference of a task is that of an entry. */
  lemma ReferredEntry(c: Case, groups: seq<seq<Entry>>, j: nat, ref: PathRef) returns (e: Entry)
    requires Verified(c, groups) && j < |c.storedPlan.tasks| && ref in c.storedPlan.tasks[j].paths
    ensures e in c.entries && ref == RefOf(IndexOf(c.assessment, c.contracts), e)
  {
    var x, limits := IndexOf(c.assessment, c.contracts), Effective(c.limits);
    var slices := AllSlices(groups, limits);
    TaskHoldsSlice(c.digest, c.snapshotID, x, groups, limits, j);
    PlanPartitions(GroupingOf(x), c.entries, groups, limits);
    var k :| 0 <= k < |RefsOf(x, slices[j])| && RefsOf(x, slices[j])[k] == ref;
    e := slices[j][k];
    FlattenHolds(slices, j, e);
    assert e in multiset(c.entries);
  }

  lemma TaskAsksForCorrectness(c: Case, groups: seq<seq<Entry>>, i: nat)
    requires Verified(c, groups) && i < |c.storedPlan.tasks|
    ensures "correctness" in c.storedPlan.tasks[i].perspectives
  {
    TaskPasses(c.digest, c.snapshotID, IndexOf(c.assessment, c.contracts), groups, Effective(c.limits), i);
    assert c.storedPlan.tasks[i].perspectives[0] == "correctness";
  }

  /** Some result of the perspective covers the entry. */
  ghost predicate PerspectiveCovers(c: Case, task: Task, e: Entry, perspective: string)
  {
    exists r :: EntryCovered(c, task, perspective, e, r)
  }

  lemma ReadyEntryReviewed(c: Case, groups: seq<seq<Entry>>, e: Entry)
    requires Verified(c, groups) && Complete(Items(c.index), c.storedPlan.tasks)
    requires DistinctKeys(c.entries) && NulFree(c.entries) && TasksDoNotCollide(c.digest, c.storedPlan.tasks) && e in c.entries
    ensures EntryReviewed(c, e)
  {
    var i := EntryHasItsTask(c, groups, e);
    TaskAsksForCorrectness(c, groups, i);
    HeldIsOnlyTask(c, groups, e, i);
    var task := c.storedPlan.tasks[i];
    forall p | p in task.perspectives ensures PerspectiveCovers(c, task, e, p) {
      var r := PerspectiveCoversEntry(c, groups, e, i, p);
    }
  }

  /**
   The verdict `ready` means: every changed inventory entry lies in exactly one task, and for
   each perspective of that task a stored, validated, completed result covers the entry at a
   sufficient status; every blocking gate of the current plan has matching pass evidence, from a
   final run where the gate asks for one; no result leaves a question open; and every finding of
   the ledger is settled, the critical and high ones by rejection, verified closure or a risk
   acceptance that has not expired.
   */
  lemma ReadyIsSound(c: Case, groups: seq<seq<Entry>>)
    requires Verified(c, groups) && Reporting.Ready(InputOf(c))
    requires DistinctKeys(c.entries) && NulFree(c.entries) && TasksDoNotCollide(c.digest, c.storedPlan.tasks)
    ensures forall e :: e in c.entries ==> EntryReviewed(c, e)
    ensures forall i :: 0 <= i < |c.expectedGates.gates| && c.expectedGates.gates[i].blocking ==> GatePassed(c, c.expectedGates.gates[i])
    ensures forall record :: record in Items(c.index) ==>
      record.resultPath in c.stored.files && c.stored.files[record.resultPath].needsConfirmation == Some([])
    ensures forall f :: f in Findings.Records(c.ledger) ==> Reporting.Settled(f, c.now)
  {
    forall e | e in c.entries ensures EntryReviewed(c, e) {
      ReadyEntryReviewed(c, groups, e);
    }
    BlockingGatesPassed(c);
    forall record | record in Items(c.index)
      ensures record.resultPath in c.stored.files && c.stored.files[record.resultPath].needsConfirmation == Some([])
    {
      NoOpenQuestions(c, groups, record);
    }
  }

  /**
   An entry assessed at one of the two highest levels has been passed twice: two records of its task,
   both completed, differ in perspective and in reviewer, and so do the stored results they stand for.
   */
  lemma HighRiskReviewedTwice(c: Case, groups: seq<seq<Entry>>, e: Entry) returns (i: nat, a: Record, b: Record)
    requires Verified(c, groups) && Complete(Items(c.index), c.storedPlan.tasks)
    requires DistinctKeys(c.entries) && NulFree(c.entries) && e in c.entries
    requires AssessedAt(c.assessment, e.path, "L3") || AssessedAt(c.assessment, e.path, "L4")
    ensures OnlyTaskOf(c, e, i)
    ensures a in Items(c.index) && b in Items(c.index)
    ensures a.taskID == b.taskID == c.storedPlan.tasks[i].id && a.completed && b.completed
    ensures a.perspective != b.perspective && DifferentReviewers(a, b)
    ensures StandsFor(c.stored, a) && StandsFor(c.stored, b)
  {
    i := EntryHasItsTask(c, groups, e);
    HeldIsOnlyTask(c, groups, e, i);
    HighRiskAsksTwice(c, groups, e, i);
    a, b := TwoPassesDifferInBoth(Items(c.index), c.storedPlan.tasks[i]);
    RecordStandsFor(c, groups, a);
    RecordStandsFor(c, groups, b);
  }

  lemma HighRiskAsksTwice(c: Case, groups: seq<seq<Entry>>, e: Entry, i: nat)
    requires Verified(c, groups) && DistinctKeys(c.entries) && e in c.entries
    requires AssessedAt(c.assessment, e.path, "L3") || AssessedAt(c.assessment, e.path, "L4")
    requires HoldsEntry(c.storedPlan.tasks, IndexOf(c.assessment, c.contracts), e, i)
    ensures c.storedPlan.tasks[i].requiredPasses == 2
  {
    var x, limits := IndexOf(c.assessment, c.contracts), Effective(c.limits);
    var slices := AllSlices(groups, limits);
    TaskHoldsSlice(c.digest, c.snapshotID, x, groups, limits, i);
    PlanPartitions(GroupingOf(x), c.entries, groups, limits);
    HeldEntry(c.entries, slices, x, i, e);
    PlanDescribes(c.digest, c.snapshotID, c.entries, c.assessment, c.contracts, c.limits, groups, c.storedPlan, i);
    assert AnyAt(slices[i], c.assessment, "L3") || AnyAt(slices[i], c.assessment, "L4");
  }

  /** Every record of a verified index stands for its stored result. */
  lemma RecordStandsFor(c: Case, groups: seq<seq<Entry>>, record: Record)
    requires Verified(c, groups) && record in Items(c.index)
    ensures StandsFor(c.stored, record)
  {
    var records := Items(c.index);
    var k :| 0 <= k < |records| && records[k] == record;
    assert RecordVerified(c.stored, TaskByID(c.storedPlan.tasks), records[k]);
  }
}
