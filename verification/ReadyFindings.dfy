/**
 What `ready` says about the findings of recorded results: they are settled as long as the ledger
 holds them, and a recording that crashed before the ledger hides them.
 */
module ReadyFindings {
  import opened Common
  import opened Digests
  import opened Ordering
  import opened Sequences
  import opened Planner
  import opened Results
  import opened ResultIndex
  import opened Verification
  import opened Recording
  import R = RecordingWrites
  import Findings
  import GateRunner
  import Reporting
  import PlannerProofs

  // ----- With every finding in the ledger -----

  /** The finding of the result has a record in the ledger, and that record stands in the way of nothing. */
  ghost predicate FindingSettled(naming: Naming, c: Case, r: Review, f: Finding)
  {
    exists l :: l in Findings.Records(c.ledger) && l.id == naming.ledgerID(r, f.id) && l.finding == f && Reporting.Settled(l, c.now)
  }

  /**
   While the ledger holds, `ready` means that every finding of every recorded result is settled, so
   the critical and high ones are rejected, verified closed or an accepted risk that has not expired.
   */
  lemma ReadySettlesRecordedFindings(naming: Naming, c: Case, record: Record, f: Finding)
    requires Reporting.Ready(InputOf(c))
    requires R.LedgerHolds(naming, c.stored.files, Items(c.index), Findings.Records(c.ledger))
    requires record in Items(c.index) && record.resultPath in c.stored.files
    requires f in FindingsOf(c.stored.files[record.resultPath])
    ensures FindingSettled(naming, c, c.stored.files[record.resultPath], f)
  {
    var r := c.stored.files[record.resultPath];
    assert R.AllEntered(naming, r, Findings.Records(c.ledger));
    assert R.Entered(naming, r, f, Findings.Records(c.ledger));
  }

  // ----- After a recording that crashed before the ledger -----

  function OnesOf(n: nat): (r: string)
    ensures |r| == n && forall i :: 0 <= i < n ==> r[i] == '1'
  {
    if n == 0 then "" else "1" + OnesOf(n - 1)
  }

  const Ones: string := OnesOf(64)
  const SnapshotID: string := "snap-" + Ones

  const Changed: Entry := Entry("unstaged", "main.go", "main.go", "modified", 1, 0, "", "")

  /** How the program digests, names and binds: nothing is assumed of it but what its packets are made of. */
  datatype Setting = Setting(
    digest: TaskDigest, naming: Naming, packetOf: Task -> Option<Packet>, pathOf: (string, string) -> string)

  /** The task has a packet, and its two digests are real ones. */
  predicate Bound(w: Setting, task: Task)
  {
    && w.packetOf(task).Some?
    && var packet := w.packetOf(task).value;
    && ValidID(packet.inputHash, "sha256:", 64) && !AllZeroDigest(packet.inputHash) && ValidID(packet.promptDigest, "sha256:", 64)
  }

  function PacketOf(w: Setting, task: Task): Packet
  {
    if w.packetOf(task).Some? then w.packetOf(task).value else Packet("", "")
  }

  /** The plan for one changed entry. */
  ghost function SmallPlan(digest: TaskDigest): Plan
  {
    var tasks := PlanTasks(digest, SnapshotID, IndexOf([], []), [[Changed]], Effective(Limits(0, 0)));
    Plan(SnapshotID, tasks, map p | p in AllPaths(tasks) :: Holders(tasks, p))
  }

  lemma OneGroup(g: Grouping, e: Entry)
    ensures SortedGroups(g, [e], [[e]])
  {
    var keys := GroupKeys(g, [e]);
    assert g([e][0]) in keys && keys == {g(e)};
    ListingOf(keys);
    DistinctSize(Listing(keys));
    assert Elements(Listing(keys)) == keys && |Listing(keys)| == 1;
    assert Listing(keys)[0] in Elements(Listing(keys));
    assert [e][..0] == [];
    assert Members(g, [e], g(e)) == [] + [e];
  }

  lemma OneSlice(e: Entry, limits: Limits)
    ensures AllSlices([[e]], limits) == [[e]]
  {
    assert SliceCount([e], limits) == 1;
    assert [e][..1] == [e] && [e][1..] == [];
    assert Slices([e], limits) == [[e]];
    assert [[e]][..0] == [];
    assert AllSlices([], limits) == [];
    assert [] + [[e]] == [[e]];
  }

  /** The one task of the plan. */
  ghost predicate IsSmall(task: Task)
  {
    && task.paths == [RefOf(IndexOf([], []), Changed)] && task.snapshotID == SnapshotID
    && task.requiredPasses == 1 && task.perspectives == ["correctness"]
  }

  lemma OneTask(digest: TaskDigest, snapshotID: string, x: Planner.Index, e: Entry, limits: Limits)
    ensures var tasks := PlanTasks(digest, snapshotID, x, [[e]], limits);
      && |tasks| == 1 && tasks[0].paths == [RefOf(x, e)] && tasks[0].snapshotID == snapshotID
      && (Rank(RiskOf(x, e.path).level) == 0 ==> tasks[0].requiredPasses == 1 && tasks[0].perspectives == ["correctness"])
  {
    OneSlice(e, limits);
    PlannerProofs.TaskHoldsSlice(digest, snapshotID, x, [[e]], limits, 0);
    assert RefsOf(x, [e]) == [RefOf(x, e)];
    assert [e][..0] == [];
    assert Rank(RiskOf(x, e.path).level) == 0 ==> TaskRisk(x, [e]) == "L0";
  }

  lemma SmallTask(digest: TaskDigest)
    ensures |SmallPlan(digest).tasks| == 1 && IsSmall(SmallPlan(digest).tasks[0])
    ensures IsPlan(digest, SnapshotID, [Changed], IndexOf([], []), Effective(Limits(0, 0)), [[Changed]], SmallPlan(digest))
  {
    var x := IndexOf([], []);
    OneGroup(GroupingOf(x), Changed);
    OneTask(digest, SnapshotID, x, Changed, Effective(Limits(0, 0)));
  }

  const Critical: Finding := Finding(
    "F1", "critical", "high", "logic", "main.go", "main.go", 1, "evidence", "impact", "remediation", "verification", "reported", false)

  function Someone(promptDigest: string): Reviewer
  {
    Reviewer("provider", "model", "family", "pass-1", "correctness", promptDigest, "isolated")
  }

  /** A completed review of the task that reports the finding. */
  function SmallReview(w: Setting, task: Task): Review
  {
    var packet := PacketOf(w, task);
    Review("1.0", task.id, SnapshotID, packet.inputHash, Someone(packet.promptDigest),
           Some([Coverage("unstaged", "main.go", "fully_reviewed", "read")]), Some([Critical]), Some([]), Some([]), "completed")
  }

  lemma OnesAreHex()
    ensures ValidID(SnapshotID, "snap-", 64) && !AllZeroDigest(SnapshotID)
  {
    assert SnapshotID[5..] == Ones;
    assert SnapshotID[|SnapshotID| - 1] == '1';
  }

  lemma SmallCoverage(task: Task)
    requires task.paths == [RefOf(IndexOf([], []), Changed)]
    ensures var items := [Coverage("unstaged", "main.go", "fully_reviewed", "read")];
      && ItemsValid((c: Coverage) => CoverageItemValid(Expected(task.paths), c), KeyOf, items)
      && CoverageComplete(Expected(task.paths), items)
    ensures TaskPaths(task) == {"main.go"}
  {
    var ref := task.paths[0];
    assert task.paths[..0] == [];
    assert ref.requiredCoverage == "fully_reviewed";
    assert Expected(task.paths) == map[CoverageKey("unstaged", "main.go") := "fully_reviewed"];
    var items := [Coverage("unstaged", "main.go", "fully_reviewed", "read")];
    forall key | key in Expected(task.paths) ensures exists i :: 0 <= i < |items| && KeyOf(items[i]) == key {
      assert KeyOf(items[0]) == key;
    }
    assert task.paths[0].path == "main.go";
  }

  lemma SmallHeader(w: Setting, task: Task)
    requires Bound(w, task) && task.snapshotID == SnapshotID && task.perspectives == ["correctness"]
    ensures HeaderValid(SmallReview(w, task), task, PacketOf(w, task).inputHash, PacketOf(w, task).promptDigest)
  {
    OnesAreHex();
    assert ReviewerValid(Someone(PacketOf(w, task).promptDigest), PacketOf(w, task).promptDigest);
  }

  lemma SmallReviewAccepted(w: Setting, task: Task)
    requires Bound(w, task) && task.paths == [RefOf(IndexOf([], []), Changed)] && task.snapshotID == SnapshotID && task.perspectives == ["correctness"]
    ensures Accepted(SmallReview(w, task), task, PacketOf(w, task).inputHash, PacketOf(w, task).promptDigest)
  {
    SmallHeader(w, task);
    SmallCoverage(task);
    assert FindingValid("1.0", task, Critical);
  }

  // ----- The recording that crashed -----

  function SmallItem(w: Setting, task: Task): Item
  {
    Item(SmallReview(w, task), true, w.pathOf(task.id, "pass-1"))
  }

  function SmallIndex(w: Setting, task: Task): ResultIndex.Index
  {
    ResultIndex.Index("1.0", Some([NewRecord(w.naming, SmallItem(w, task), 1)]))
  }

  function SmallLedger(w: Setting, task: Task): Findings.Ledger
  {
    Findings.Ledger("1.0", Some(BatchFindings(w.naming, [SmallItem(w, task)], 1)))
  }

  const NoFiles: R.Files := R.Files(map[], None, None)

  lemma SmallBatch(w: Setting, task: Task)
    ensures BatchRecords(w.naming, [SmallItem(w, task)], 1) == [NewRecord(w.naming, SmallItem(w, task), 1)]
    ensures BatchFindings(w.naming, [SmallItem(w, task)], 1) == [NewFinding(w.naming, SmallReview(w, task), Critical, 1)]
  {
    var entries := [NewFinding(w.naming, SmallReview(w, task), Critical, 1)];
    assert NewFindings(w.naming, SmallReview(w, task), 1) == entries;
    FlatMapLast(Importer(w.naming, 1), [], SmallItem(w, task));
    assert [] + [SmallItem(w, task)] == [SmallItem(w, task)] && [] + entries == entries;
  }

  lemma SmallAcceptable(w: Setting, task: Task)
    ensures Acceptable(w.naming, R.IndexIn(NoFiles), R.LedgerIn(NoFiles), [SmallItem(w, task)], 1)
  {
    var items := [SmallItem(w, task)];
    SmallBatch(w, task);
    assert Fresh(Map(Pass, []), Map(ItemPass, items));
    assert Fresh(IDsOf([]), IDsOf(BatchFindings(w.naming, items, 1)));
    assert FindingsOf(SmallReview(w, task)) == [Critical];
  }

  lemma SmallRecorded(w: Setting, task: Task)
    ensures Recorded(w.naming, R.IndexIn(NoFiles), R.LedgerIn(NoFiles), [SmallItem(w, task)], 1,
                     SmallIndex(w, task), SmallLedger(w, task))
  {
    var records, findings := BatchRecords(w.naming, [SmallItem(w, task)], 1), BatchFindings(w.naming, [SmallItem(w, task)], 1);
    SmallBatch(w, task);
    assert [] + records == records && [] + findings == findings;
  }

  lemma SmallAccepts(w: Setting, task: Task)
    ensures R.Accepts(w.naming, NoFiles, [SmallItem(w, task)], 1, SmallIndex(w, task), SmallLedger(w, task))
  {
    SmallAcceptable(w, task);
    SmallRecorded(w, task);
    assert R.NewPaths([], [SmallItem(w, task)]);
  }

  // ----- The case that is verified -----

  /** The files when the recording has stopped between the index and the ledger. */
  function CrashedFiles(w: Setting, task: Task): R.Files
  {
    R.Files(map[w.pathOf(task.id, "pass-1") := SmallReview(w, task)], Some(SmallIndex(w, task)), None)
  }

  lemma CrashLeaves(w: Setting, task: Task)
    ensures R.After(NoFiles, [SmallItem(w, task)], SmallIndex(w, task), SmallLedger(w, task), 2) == CrashedFiles(w, task)
  {
    var items := [SmallItem(w, task)];
    R.AfterIndex(NoFiles, items, SmallIndex(w, task), SmallLedger(w, task));
    assert items[..0] == [];
    assert R.StoreAll(map[], items) == map[w.pathOf(task.id, "pass-1") := SmallReview(w, task)];
  }

  /** What the verdict is made from. */
  function CaseOf(w: Setting, plan: Plan, t: R.Files): Case
  {
    Case(w.digest, SnapshotID, [Changed], [], [], Limits(0, 0), plan,
         Stored(t.results, w.packetOf, w.naming.digest, w.pathOf),
         R.IndexIn(t), R.LedgerIn(t), GateRunner.Plan(SnapshotID, "", "", []), None, [], 1)
  }

  lemma SmallIndexVerified(w: Setting, plan: Plan, task: Task)
    requires plan.tasks == [task] && IsSmall(task) && Bound(w, task)
    ensures var c := CaseOf(w, plan, CrashedFiles(w, task));
      IndexVerified(c.stored, TaskByID([task]), c.index)
  {
    var c := CaseOf(w, plan, CrashedFiles(w, task));
    SmallReviewAccepted(w, task);
    assert [task][..0] == [];
    assert TaskByID([task]) == map[task.id := task];
    assert RecordVerified(c.stored, TaskByID([task]), NewRecord(w.naming, SmallItem(w, task), 1));
  }

  lemma SmallCaseVerified(w: Setting, plan: Plan, task: Task)
    requires plan.tasks == [task] && IsSmall(task) && Bound(w, task)
    requires IsPlan(w.digest, SnapshotID, [Changed], IndexOf([], []), Effective(Limits(0, 0)), [[Changed]], plan)
    ensures Verified(CaseOf(w, plan, CrashedFiles(w, task)), [[Changed]])
  {
    SmallIndexVerified(w, plan, task);
  }

  lemma SmallComplete(w: Setting, task: Task)
    requires IsSmall(task)
    ensures Complete(Items(SmallIndex(w, task)), [task])
  {
    var records := Items(SmallIndex(w, task));
    assert records == [NewRecord(w.naming, SmallItem(w, task), 1)] && Counted(records[0], task.id);
    assert records[0].perspective in Perspectives(records, task.id) && Context(records[0]) in Contexts(records, task.id);
    assert TaskComplete(records, task);
  }

  lemma SmallReady(w: Setting, plan: Plan, task: Task)
    requires plan.tasks == [task] && IsSmall(task) && Bound(w, task)
    ensures Reporting.Ready(InputOf(CaseOf(w, plan, CrashedFiles(w, task))))
  {
    var c := CaseOf(w, plan, CrashedFiles(w, task));
    SmallComplete(w, task);
    var records := Items(c.index);
    assert records == [NewRecord(w.naming, SmallItem(w, task), 1)] && records[..0] == [];
    assert Confirmations(c.stored.files, records) == [] + [];
  }

  /** A recorded result has a critical finding that no ledger record enters. */
  ghost predicate HidesCritical(naming: Naming, c: Case)
  {
    exists record, f :: record in Items(c.index) && record.resultPath in c.stored.files
      && f in FindingsOf(c.stored.files[record.resultPath]) && f.severity == "critical" && f.state == "reported"
      && !R.Entered(naming, c.stored.files[record.resultPath], f, Findings.Records(c.ledger))
  }

  lemma SmallHides(w: Setting, plan: Plan, task: Task)
    ensures HidesCritical(w.naming, CaseOf(w, plan, CrashedFiles(w, task)))
  {
    var c := CaseOf(w, plan, CrashedFiles(w, task));
    var record := NewRecord(w.naming, SmallItem(w, task), 1);
    assert Items(c.index)[0] == record;
    assert FindingsOf(c.stored.files[record.resultPath])[0] == Critical;
  }

  /** Every check of the verdict passes, it is `ready`, and a recorded critical finding is hidden. */
  ghost predicate ReadyThough(naming: Naming, c: Case)
  {
    Verified(c, [[Changed]]) && Reporting.Ready(InputOf(c)) && HidesCritical(naming, c)
  }

  lemma SmallReadyThough(w: Setting, plan: Plan, task: Task)
    requires plan.tasks == [task] && IsSmall(task) && Bound(w, task)
    requires IsPlan(w.digest, SnapshotID, [Changed], IndexOf([], []), Effective(Limits(0, 0)), [[Changed]], plan)
    ensures ReadyThough(w.naming, CaseOf(w, plan, CrashedFiles(w, task)))
  {
    SmallCaseVerified(w, plan, task);
    SmallReady(w, plan, task);
    SmallHides(w, plan, task);
  }

  lemma CrashedReadyThough(w: Setting, plan: Plan, task: Task)
    requires plan.tasks == [task] && IsSmall(task) && Bound(w, task)
    requires IsPlan(w.digest, SnapshotID, [Changed], IndexOf([], []), Effective(Limits(0, 0)), [[Changed]], plan)
    ensures ReadyThough(w.naming, CaseOf(w, plan, R.After(NoFiles, [SmallItem(w, task)], SmallIndex(w, task), SmallLedger(w, task), 2)))
  {
    CrashLeaves(w, task);
    SmallReadyThough(w, plan, task);
  }

  /**
   Recording a completed result with a critical finding, stopped between the index and the ledger:
   every check of the verdict passes and it is `ready`, while the finding is open and in no ledger.
   */
  lemma CrashHidesCriticalFinding(w: Setting)
    returns (plan: Plan, items: seq<Item>, index: ResultIndex.Index, ledger: Findings.Ledger)
    requires forall task :: task in SmallPlan(w.digest).tasks ==> Bound(w, task)
    ensures |items| == 1 && R.Accepts(w.naming, NoFiles, items, 1, index, ledger)
    ensures ReadyThough(w.naming, CaseOf(w, plan, R.After(NoFiles, items, index, ledger, 2)))
  {
    plan := SmallPlan(w.digest);
    SmallTask(w.digest);
    var task := plan.tasks[0];
    items, index, ledger := [SmallItem(w, task)], SmallIndex(w, task), SmallLedger(w, task);
    SmallAccepts(w, task);
    assert plan.tasks == [task];
    CrashedReadyThough(w, plan, task);
  }
}
