/**
 The index of recorded review passes: checking it against the stored results, and deciding
 whether every task of a plan has had the passes it requires.
 */
module ResultIndex {
  import opened Common
  import opened Planner
  import opened Results

  datatype Record = Record(
    taskID: string, passID: string, perspective: string, provider: string, model: string, modelFamily: string,
    promptDigest: string, contextIsolation: string, resultPath: string, resultDigest: string, completed: bool,
    recordedAt: int)

  const ZERO_TIME := 0

  /** `records` is `None` when the JSON form has no array. */
  datatype Index = Index(schemaVersion: string, records: Option<seq<Record>>)

  function Items(index: Index): seq<Record>
  {
    if index.records.Some? then index.records.value else []
  }

  /** What a packet binds a result to. */
  datatype Packet = Packet(inputHash: string, promptDigest: string)

  /** The run directory's result files, and the functions that name and digest them. */
  datatype Stored = Stored(
    files: map<string, Review>, packet: Task -> Option<Packet>, digest: Review -> string, pathOf: (string, string) -> string)

  predicate RecordMatches(s: Stored, record: Record, r: Review, completed: bool)
  {
    && record.taskID == r.taskID && record.passID == r.reviewer.passID && record.perspective == r.reviewer.perspective
    && record.provider == r.reviewer.provider && record.model == r.reviewer.model
    && record.modelFamily == r.reviewer.modelFamily && record.promptDigest == r.reviewer.promptDigest
    && record.contextIsolation == r.reviewer.contextIsolation
    && record.resultDigest == s.digest(r) && record.completed == completed && record.recordedAt != ZERO_TIME
  }

  ghost predicate RecordVerified(s: Stored, tasks: map<string, Task>, record: Record)
  {
    && record.taskID in tasks && record.resultPath == s.pathOf(record.taskID, record.passID)
    && record.resultPath in s.files
    && var task, r, packet := tasks[record.taskID], s.files[record.resultPath], s.packet(tasks[record.taskID]);
      && packet.Some? && Accepted(r, task, packet.value.inputHash, packet.value.promptDigest)
      && RecordMatches(s, record, r, r.status == "completed")
  }

  function PassKey(record: Record): string
  {
    record.taskID + "\0" + record.passID
  }

  ghost predicate IndexVerified(s: Stored, tasks: map<string, Task>, index: Index)
  {
    && index.schemaVersion == "1.0" && index.records.Some?
    && (forall i :: 0 <= i < |index.records.value| ==> RecordVerified(s, tasks, index.records.value[i]))
    && forall i, j :: 0 <= i < j < |index.records.value| ==> PassKey(index.records.value[i]) != PassKey(index.records.value[j])
  }

  method CheckRecord(s: Stored, tasks: map<string, Task>, record: Record) returns (ok: bool)
    ensures ok <==> RecordVerified(s, tasks, record)
  {
    if record.taskID !in tasks || record.resultPath != s.pathOf(record.taskID, record.passID) {
      return false;
    }
    var packet := s.packet(tasks[record.taskID]);
    if packet.None? || record.resultPath !in s.files {
      return false;
    }
    var r := s.files[record.resultPath];
    var completed := Validate(r, tasks[record.taskID], packet.value.inputHash, packet.value.promptDigest);
    if completed.Err? {
      return false;
    }
    return RecordMatches(s, record, r, completed.value);
  }

  /** `good` is the verdict on single records. */
  ghost predicate Judges(good: Record -> bool, s: Stored, tasks: map<string, Task>)
  {
    forall record {:trigger RecordVerified(s, tasks, record)} :: good(record) <==> RecordVerified(s, tasks, record)
  }

  method JudgeRecord(s: Stored, tasks: map<string, Task>, record: Record, ghost good: Record -> bool) returns (ok: bool)
    requires Judges(good, s, tasks)
    ensures ok <==> good(record)
  {
    ok := CheckRecord(s, tasks, record);
  }

  method VerifyRecords(s: Stored, tasks: map<string, Task>, records: seq<Record>, ghost good: Record -> bool) returns (ok: bool)
    requires Judges(good, s, tasks)
    ensures ok <==>
      && (forall i :: 0 <= i < |records| ==> good(records[i]))
      && forall i, j :: 0 <= i < j < |records| ==> PassKey(records[i]) != PassKey(records[j])
  {
    var seen: set<string> := {};
    for i := 0 to |records|
      invariant forall key :: key in seen <==> exists k :: 0 <= k < i && PassKey(records[k]) == key
      invariant forall k :: 0 <= k < i ==> good(records[k])
      invariant forall j, k :: 0 <= j < k < i ==> PassKey(records[j]) != PassKey(records[k])
    {
      if PassKey(records[i]) in seen {
        return false;
      }
      seen := seen + {PassKey(records[i])};
      var verified := JudgeRecord(s, tasks, records[i], good);
      if !verified {
        return false;
      }
    }
    return true;
  }

  method VerifyIndex(s: Stored, tasks: seq<Task>, index: Index) returns (ok: bool)
    ensures ok <==> IndexVerified(s, TaskByID(tasks), index)
  {
    if index.schemaVersion != "1.0" || index.records.None? {
      return false;
    }
    var byID := CollectTasks(tasks);
    ok := VerifyRecords(s, byID, index.records.value, record => RecordVerified(s, byID, record));
  }

  // ----- Completion -----

  /** A completed pass over the task. */
  predicate Counted(record: Record, taskID: string)
  {
    record.taskID == taskID && record.completed
  }

  function Context(record: Record): string
  {
    record.provider + "\0" + record.modelFamily + "\0" + record.contextIsolation
  }

  function Perspectives(records: seq<Record>, taskID: string): set<string>
  {
    set i | 0 <= i < |records| && Counted(records[i], taskID) :: records[i].perspective
  }

  function Contexts(records: seq<Record>, taskID: string): set<string>
  {
    set i | 0 <= i < |records| && Counted(records[i], taskID) :: Context(records[i])
  }

  ghost predicate TaskComplete(records: seq<Record>, task: Task)
  {
    && |Perspectives(records, task.id)| >= task.requiredPasses && |Contexts(records, task.id)| >= task.requiredPasses
    && forall p :: p in task.perspectives ==> p in Perspectives(records, task.id)
  }

  ghost predicate Complete(records: seq<Record>, tasks: seq<Task>)
  {
    tasks != [] && forall i :: 0 <= i < |tasks| ==> TaskComplete(records, tasks[i])
  }

  method CheckTask(records: seq<Record>, task: Task) returns (ok: bool)
    ensures ok <==> TaskComplete(records, task)
  {
    var completed: set<string>, contexts: set<string> := {}, {};
    for i := 0 to |records|
      invariant completed == set k | 0 <= k < i && Counted(records[k], task.id) :: records[k].perspective
      invariant contexts == set k | 0 <= k < i && Counted(records[k], task.id) :: Context(records[k])
    {
      if records[i].taskID == task.id && records[i].completed {
        completed := completed + {records[i].perspective};
        contexts := contexts + {Context(records[i])};
      }
    }
    assert completed == Perspectives(records, task.id) && contexts == Contexts(records, task.id);
    if |completed| < task.requiredPasses || |contexts| < task.requiredPasses {
      return false;
    }
    for k := 0 to |task.perspectives|
      invariant forall j :: 0 <= j < k ==> task.perspectives[j] in completed
    {
      if task.perspectives[k] !in completed {
        return false;
      }
    }
    return true;
  }

  method ReviewComplete(index: Index, tasks: seq<Task>) returns (ok: bool)
    ensures ok <==> Complete(Items(index), tasks)
  {
    for i := 0 to |tasks|
      invariant forall k :: 0 <= k < i ==> TaskComplete(Items(index), tasks[k])
    {
      ok := CheckTask(Items(index), tasks[i]);
      if !ok {
        return;
      }
    }
    return |tasks| > 0;
  }

  // ----- What completion gives -----

  lemma TwoMembers<T>(s: set<T>) returns (a: T, b: T)
    requires |s| >= 2
    ensures a in s && b in s && a != b
  {
    a :| a in s;
    assert |s - {a}| >= 1;
    b :| b in s - {a};
  }

  /**
   Perspectives and reviewer contexts are counted apart. Still, a complete task that requires two
   passes has two completed records that differ in both.
   */
  lemma TwoPassesDifferInBoth(records: seq<Record>, task: Task) returns (a: Record, b: Record)
    requires TaskComplete(records, task) && task.requiredPasses >= 2
    ensures a in records && b in records && a.taskID == b.taskID == task.id && a.completed && b.completed
    ensures a.perspective != b.perspective
    ensures a.provider != b.provider || a.modelFamily != b.modelFamily || a.contextIsolation != b.contextIsolation
  {
    var p, q := TwoMembers(Perspectives(records, task.id));
    var i :| 0 <= i < |records| && Counted(records[i], task.id) && records[i].perspective == p;
    var j :| 0 <= j < |records| && Counted(records[j], task.id) && records[j].perspective == q;
    a, b := records[i], records[j];
    if Context(a) == Context(b) {
      var c, d := TwoMembers(Contexts(records, task.id));
      var other := if c == Context(a) then d else c;
      var k :| 0 <= k < |records| && Counted(records[k], task.id) && Context(records[k]) == other;
      if records[k].perspective != a.perspective {
        b := records[k];
      } else {
        a := records[k];
      }
    }
  }

  /** A stored, validated, completed result of one perspective over one task. */
  ghost predicate ReviewedBy(s: Stored, index: Index, task: Task, perspective: string, r: Review)
  {
    && (exists record :: record in Items(index) && record.taskID == task.id && record.perspective == perspective &&
          record.resultPath in s.files && s.files[record.resultPath] == r && record.resultDigest == s.digest(r))
    && r.reviewer.perspective == perspective && r.status == "completed"
    && var packet := s.packet(task);
      packet.Some? && Accepted(r, task, packet.value.inputHash, packet.value.promptDigest)
  }

  /** In a verified index a complete task has such a result for each of its perspectives. */
  lemma EachPerspectiveReviewed(s: Stored, tasks: map<string, Task>, index: Index, task: Task, perspective: string) returns (r: Review)
    requires IndexVerified(s, tasks, index) && TaskComplete(Items(index), task)
    requires task.id in tasks && tasks[task.id] == task && perspective in task.perspectives
    ensures ReviewedBy(s, index, task, perspective, r)
  {
    var records := index.records.value;
    assert perspective in Perspectives(records, task.id);
    var i :| 0 <= i < |records| && Counted(records[i], task.id) && records[i].perspective == perspective;
    assert RecordVerified(s, tasks, records[i]);
    assert records[i] in Items(index);
    r := s.files[records[i].resultPath];
  }
}
