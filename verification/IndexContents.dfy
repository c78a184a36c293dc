/** What a verified index says of its records, and when a task of a plan counts as reviewed. */
module IndexContents {
  import opened Common
  import opened Ordering
  import opened Planner
  import opened Results
  import opened ResultIndex
  import opened ResultContents

  // ----- The records of a verified index -----

  /** The record says what its stored result says of task, pass and reviewer, and was completed exactly when the result is. */
  ghost predicate StandsFor(s: Stored, record: Record)
  {
    && record.resultPath in s.files
    && var r := s.files[record.resultPath];
    && record.taskID == r.taskID && record.passID == r.reviewer.passID && record.perspective == r.reviewer.perspective
    && record.provider == r.reviewer.provider && record.model == r.reviewer.model && record.modelFamily == r.reviewer.modelFamily
    && record.contextIsolation == r.reviewer.contextIsolation && record.promptDigest == r.reviewer.promptDigest
    && record.resultDigest == s.digest(r) && record.completed == (r.status == "completed") && record.recordedAt != 0
  }

  /** The record is of a task of the plan, lies under its own name, and its stored result is accepted for the task's packet. */
  ghost predicate Backed(s: Stored, tasks: map<string, Task>, record: Record)
  {
    && record.taskID in tasks && record.resultPath == s.pathOf(record.taskID, record.passID) && StandsFor(s, record)
    && s.packet(tasks[record.taskID]).Some?
    && var packet := s.packet(tasks[record.taskID]).value;
       Accepted(s.files[record.resultPath], tasks[record.taskID], packet.inputHash, packet.promptDigest)
  }

  ghost predicate AllBacked(s: Stored, tasks: map<string, Task>, records: seq<Record>)
  {
    forall i :: 0 <= i < |records| ==> Backed(s, tasks, records[i])
  }

  lemma LastCut(a: string, x: string, b: string, y: string)
    requires '\0' !in x && '\0' !in y && a + "\0" + x == b + "\0" + y
    ensures a == b && x == y
  {
    var s, t := a + "\0" + x, b + "\0" + y;
    assert s[|a|] == '\0' && t[|b|] == '\0';
    assert forall i :: |a| < i < |s| ==> s[i] == x[i - |a| - 1];
    assert forall i :: |b| < i < |t| ==> t[i] == y[i - |b| - 1];
    assert |a| == |b|;
    assert a == s[..|a|] == t[..|b|] == b;
    assert x == s[|a| + 1..] == t[|b| + 1..] == y;
  }

  lemma RecordBacked(s: Stored, tasks: map<string, Task>, record: Record)
    ensures RecordVerified(s, tasks, record) <==> Backed(s, tasks, record)
  {
  }

  lemma BackedPass(s: Stored, tasks: map<string, Task>, record: Record)
    requires Backed(s, tasks, record)
    ensures '\0' !in record.passID
  {
    var packet := s.packet(tasks[record.taskID]).value;
    HeaderExactly(s.files[record.resultPath], tasks[record.taskID], packet.inputHash, packet.promptDigest);
  }

  /** An index is verified exactly when each of its records is backed by its stored result and no pass of a task is there twice. */
  lemma VerifiedExactly(s: Stored, tasks: map<string, Task>, index: ResultIndex.Index)
    ensures IndexVerified(s, tasks, index) <==>
      && index.schemaVersion == "1.0" && index.records.Some? && AllBacked(s, tasks, index.records.value)
      && forall i, j :: 0 <= i < j < |index.records.value| ==>
           index.records.value[i].taskID != index.records.value[j].taskID || index.records.value[i].passID != index.records.value[j].passID
  {
    if index.records.Some? {
      var records := index.records.value;
      forall i | 0 <= i < |records| ensures RecordVerified(s, tasks, records[i]) <==> Backed(s, tasks, records[i]) {
        RecordBacked(s, tasks, records[i]);
      }
      if AllBacked(s, tasks, records) {
        forall i, j | 0 <= i < j < |records|
          ensures PassKey(records[i]) == PassKey(records[j]) <==> records[i].taskID == records[j].taskID && records[i].passID == records[j].passID
        {
          BackedPass(s, tasks, records[i]);
          BackedPass(s, tasks, records[j]);
          if PassKey(records[i]) == PassKey(records[j]) {
            LastCut(records[i].taskID, records[i].passID, records[j].taskID, records[j].passID);
          }
        }
      }
    }
  }

  // ----- When a task counts as reviewed -----

  /** The two reviewers differ in provider, model family or context. */
  predicate DifferentReviewers(a: Record, b: Record)
  {
    a.provider != b.provider || a.modelFamily != b.modelFamily || a.contextIsolation != b.contextIsolation
  }

  /** No part of a reviewer's context holds the separator. */
  ghost predicate CleanContexts(records: seq<Record>)
  {
    forall i :: 0 <= i < |records| ==> '\0' !in records[i].modelFamily && '\0' !in records[i].contextIsolation
  }

  lemma ContextsDiffer(a: Record, b: Record)
    requires '\0' !in a.modelFamily && '\0' !in a.contextIsolation && '\0' !in b.modelFamily && '\0' !in b.contextIsolation
    ensures Context(a) != Context(b) <==> DifferentReviewers(a, b)
  {
    if Context(a) == Context(b) {
      LastCut(a.provider + "\0" + a.modelFamily, a.contextIsolation, b.provider + "\0" + b.modelFamily, b.contextIsolation);
      LastCut(a.provider, a.modelFamily, b.provider, b.modelFamily);
    }
  }

  ghost predicate PassedFrom(records: seq<Record>, taskID: string, perspective: string)
  {
    exists i :: 0 <= i < |records| && records[i].taskID == taskID && records[i].completed && records[i].perspective == perspective
  }

  ghost predicate PassedByTwo(records: seq<Record>, taskID: string)
  {
    exists i, j :: 0 <= i < |records| && 0 <= j < |records| && records[i].taskID == taskID && records[i].completed
                   && records[j].taskID == taskID && records[j].completed && DifferentReviewers(records[i], records[j])
  }

  lemma PerspectivesCounted(records: seq<Record>, task: Task)
    requires Distinct(task.perspectives) && forall p :: p in task.perspectives ==> p in Perspectives(records, task.id)
    ensures |Perspectives(records, task.id)| >= |task.perspectives|
  {
    DistinctSize(task.perspectives);
    SubsetSize(Elements(task.perspectives), Perspectives(records, task.id));
  }

  lemma {:induction false} SubsetSize<T>(a: set<T>, b: set<T>)
    requires a <= b
    ensures |a| <= |b|
    decreases |a|
  {
    if a != {} {
      var x :| x in a;
      SubsetSize(a - {x}, b - {x});
    }
  }

  lemma TwoContexts(records: seq<Record>, taskID: string)
    requires CleanContexts(records)
    ensures |Contexts(records, taskID)| >= 2 <==> PassedByTwo(records, taskID)
  {
    var contexts := Contexts(records, taskID);
    if |contexts| >= 2 {
      var c, d := TwoMembers(contexts);
      var i :| 0 <= i < |records| && Counted(records[i], taskID) && Context(records[i]) == c;
      var j :| 0 <= j < |records| && Counted(records[j], taskID) && Context(records[j]) == d;
      ContextsDiffer(records[i], records[j]);
    }
    if i, j :| 0 <= i < |records| && 0 <= j < |records| && records[i].taskID == taskID && records[i].completed
               && records[j].taskID == taskID && records[j].completed && DifferentReviewers(records[i], records[j]) {
      ContextsDiffer(records[i], records[j]);
      assert Counted(records[i], taskID) && Counted(records[j], taskID);
      SubsetSize({Context(records[i]), Context(records[j])}, contexts);
    }
  }

  /**
   A task that asks for one or two passes, one a perspective, counts as reviewed exactly when each of
   its perspectives has a completed pass and, for two, two completed passes are of different reviewers.
   */
  lemma ReviewedExactly(records: seq<Record>, task: Task)
    requires CleanContexts(records) && Distinct(task.perspectives) && task.requiredPasses == |task.perspectives|
    requires task.requiredPasses == 1 || task.requiredPasses == 2
    ensures TaskComplete(records, task) <==>
      && (forall p :: p in task.perspectives ==> PassedFrom(records, task.id, p))
      && (task.requiredPasses == 2 ==> PassedByTwo(records, task.id))
  {
    forall p ensures p in Perspectives(records, task.id) <==> PassedFrom(records, task.id, p) {
      if PassedFrom(records, task.id, p) {
        var i :| 0 <= i < |records| && records[i].taskID == task.id && records[i].completed && records[i].perspective == p;
        assert Counted(records[i], task.id);
      }
    }
    TwoContexts(records, task.id);
    if forall p :: p in task.perspectives ==> PassedFrom(records, task.id, p) {
      PerspectivesCounted(records, task);
      assert task.perspectives[0] in task.perspectives;
      OneContext(records, task.id, task.perspectives[0]);
    }
  }

  lemma OneContext(records: seq<Record>, taskID: string, p: string)
    requires PassedFrom(records, taskID, p)
    ensures |Contexts(records, taskID)| >= 1
  {
    var i :| 0 <= i < |records| && records[i].taskID == taskID && records[i].completed && records[i].perspective == p;
    assert Counted(records[i], taskID);
    SubsetSize({Context(records[i])}, Contexts(records, taskID));
  }
}
