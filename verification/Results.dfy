/**
 Review results: what `Validate` accepts, the index of recorded passes, and when a review is
 complete. Providers' output is untrusted, so every malformed result has an error path.
 */
module Results {
  import opened Common
  import opened Digests
  import opened Ordering
  import opened Planner

  // ----- Results -----

  datatype Reviewer = Reviewer(
    provider: string, model: string, modelFamily: string, passID: string, perspective: string,
    promptDigest: string, contextIsolation: string)

  datatype Coverage = Coverage(scope: string, path: string, status: string, evidence: string)

  /** `lineMissing` records that the JSON form was parsed and had no line. */
  datatype Finding = Finding(
    id: string, severity: string, confidence: string, category: string, path: string, triggerPath: string,
    line: int, evidence: string, impact: string, remediation: string, verification: string, state: string,
    lineMissing: bool)

  datatype Confirmation = Confirmation(id: string, question: string, owner: string)

  datatype ResidualRisk = ResidualRisk(id: string, risk: string, owner: string, reviewTrigger: string)

  /** The four collections are `None` when the JSON form lacks them. */
  datatype Review = Review(
    schemaVersion: string, taskID: string, snapshotID: string, taskInputHash: string, reviewer: Reviewer,
    coverage: Option<seq<Coverage>>, findings: Option<seq<Finding>>,
    needsConfirmation: Option<seq<Confirmation>>, residualRisks: Option<seq<ResidualRisk>>, status: string)

  function FindingsOf(r: Review): seq<Finding>
  {
    if r.findings.Some? then r.findings.value else []
  }

  datatype ValidationError = Header | BadFinding | BadConfirmation | BadResidual | BadCoverage | Incomplete

  // ----- Header -----

  /** What follows the last colon, or without colons the last dash, is zeros and not empty. */
  predicate AllZeroDigest(value: string)
  {
    var separator := if ':' in value then ':' else '-';
    exists i :: 0 <= i < |value| - 1 && value[i] == separator && ZeroTail(value, i)
  }

  predicate ZeroTail(value: string, i: nat)
  {
    forall j :: i < j < |value| ==> value[j] == '0'
  }

  predicate HeaderValid(r: Review, task: Task, inputHash: string, promptDigest: string)
  {
    && (r.schemaVersion == "1.0" || r.schemaVersion == "1.1")
    && ValidID(r.snapshotID, "snap-", 64) && ValidID(r.taskInputHash, "sha256:", 64)
    && r.taskID == task.id && r.snapshotID == task.snapshotID && r.taskInputHash == inputHash
    && !AllZeroDigest(r.snapshotID) && !AllZeroDigest(r.taskInputHash)
    && ReviewerValid(r.reviewer, promptDigest)
    && r.reviewer.perspective in task.perspectives
    && (r.status == "incomplete" || r.status == "completed")
    && r.coverage.Some? && r.findings.Some? && r.needsConfirmation.Some? && r.residualRisks.Some?
  }

  predicate ReviewerValid(reviewer: Reviewer, promptDigest: string)
  {
    && reviewer.provider != "" && reviewer.passID != "" && reviewer.perspective != ""
    && reviewer.model != "" && reviewer.modelFamily != "" && reviewer.contextIsolation != ""
    && reviewer.promptDigest == promptDigest && ValidID(reviewer.promptDigest, "sha256:", 64)
    && |reviewer.passID| <= 128
    && '\0' !in reviewer.passID && '\r' !in reviewer.passID && '\n' !in reviewer.passID
  }

  // ----- Items -----

  predicate FindingValid(version: string, task: Task, f: Finding)
  {
    && f.id != "" && f.severity != "" && f.confidence != "" && f.category != "" && f.path != "" && f.triggerPath != ""
    && f.evidence != "" && f.impact != "" && f.remediation != "" && f.verification != ""
    && f.path in TaskPaths(task) && f.triggerPath in TaskPaths(task)
    && (f.state == "reported" || f.state == "needs_confirmation")
    && f.severity in ["critical", "high", "medium", "low", "info"]
    && f.confidence in ["high", "medium", "low"]
    && !(version == "1.1" && f.lineMissing)
    && f.line >= 0
  }

  predicate ConfirmationValid(c: Confirmation) { c.id != "" && c.question != "" && c.owner != "" }

  predicate ResidualValid(r: ResidualRisk) { r.id != "" && r.risk != "" && r.owner != "" && r.reviewTrigger != "" }

  /** Every item passes its check and no two share a name. */
  ghost predicate ItemsValid<T>(ok: T -> bool, name: T -> string, items: seq<T>)
  {
    && (forall i :: 0 <= i < |items| ==> ok(items[i]))
    && forall i, j :: 0 <= i < j < |items| ==> name(items[i]) != name(items[j])
  }

  /** The shape of the three item loops: a set of seen names beside the checks. */
  method CheckItems<T>(ok: T -> bool, name: T -> string, items: seq<T>) returns (valid: bool)
    ensures valid <==> ItemsValid(ok, name, items)
  {
    var seen: set<string> := {};
    for i := 0 to |items|
      invariant forall id :: id in seen <==> exists k :: 0 <= k < i && name(items[k]) == id
      invariant forall k :: 0 <= k < i ==> ok(items[k])
      invariant forall j, k :: 0 <= j < k < i ==> name(items[j]) != name(items[k])
    {
      if !ok(items[i]) || name(items[i]) in seen {
        return false;
      }
      seen := seen + {name(items[i])};
    }
    return true;
  }

  // ----- Coverage -----

  predicate ValidCoverageStatus(status: string)
  {
    status in ["fully_reviewed", "mechanically_verified", "invariant_checked", "sampled", "excluded_with_reason", "not_reviewed"]
  }

  predicate CoverageSatisfies(required: string, actual: string)
  {
    if required == "fully_reviewed" then actual == "fully_reviewed"
    else if required == "mechanically_verified" then
      actual == "mechanically_verified" || actual == "invariant_checked" || actual == "fully_reviewed"
    else if required == "invariant_checked" then actual == "invariant_checked" || actual == "fully_reviewed"
    else false
  }

  function CoverageKey(scope: string, path: string): string
  {
    scope + "\0" + path
  }

  /** What is required for each key; of repeated keys the last counts. */
  function Expected(paths: seq<PathRef>): map<string, string>
  {
    if paths == [] then map[]
    else
      var last := paths[|paths| - 1];
      Expected(paths[..|paths| - 1])[CoverageKey(last.scope, last.path) := last.requiredCoverage]
  }

  function KeyOf(c: Coverage): string { CoverageKey(c.scope, c.path) }

  predicate CoverageItemValid(expected: map<string, string>, c: Coverage)
  {
    KeyOf(c) in expected && ValidCoverageStatus(c.status) && c.evidence != ""
  }

  /** Every required key is covered, and nothing is covered below what is required. */
  ghost predicate CoverageComplete(expected: map<string, string>, items: seq<Coverage>)
  {
    && (forall key :: key in expected ==> exists i :: 0 <= i < |items| && KeyOf(items[i]) == key)
    && forall i :: 0 <= i < |items| && KeyOf(items[i]) in expected ==> CoverageSatisfies(expected[KeyOf(items[i])], items[i].status)
  }

  method CollectExpected(paths: seq<PathRef>) returns (expected: map<string, string>)
    ensures expected == Expected(paths)
  {
    expected := map[];
    for i := 0 to |paths|
      invariant expected == Expected(paths[..i])
    {
      assert paths[..i + 1][..i] == paths[..i];
      expected := expected[CoverageKey(paths[i].scope, paths[i].path) := paths[i].requiredCoverage];
    }
    assert paths[..|paths|] == paths;
  }

  /** The loop over coverage, generic in the two judgements it makes about an item. */
  method ScanCoverage(valid: Coverage -> bool, enough: Coverage -> bool, items: seq<Coverage>)
    returns (ok: bool, seen: set<string>, all: bool)
    ensures ok <==> ItemsValid(valid, KeyOf, items)
    ensures ok ==> seen == (set i | 0 <= i < |items| :: KeyOf(items[i]))
    ensures ok ==> (all <==> forall i :: 0 <= i < |items| ==> enough(items[i]))
  {
    seen, all := {}, true;
    for i := 0 to |items|
      invariant seen == set k | 0 <= k < i :: KeyOf(items[k])
      invariant forall k :: 0 <= k < i ==> valid(items[k])
      invariant forall j, k :: 0 <= j < k < i ==> KeyOf(items[j]) != KeyOf(items[k])
      invariant all <==> forall k :: 0 <= k < i ==> enough(items[k])
    {
      if !valid(items[i]) || KeyOf(items[i]) in seen {
        return false, seen, all;
      }
      seen := seen + {KeyOf(items[i])};
      all := all && enough(items[i]);
    }
    ok := true;
  }

  method CheckCoverage(task: Task, items: seq<Coverage>) returns (ok: bool, complete: bool)
    ensures ok <==> ItemsValid((c: Coverage) => CoverageItemValid(Expected(task.paths), c), KeyOf, items)
    ensures ok ==> (complete <==> CoverageComplete(Expected(task.paths), items))
  {
    var expected := CollectExpected(task.paths);
    var enough := (c: Coverage) => KeyOf(c) in expected && CoverageSatisfies(expected[KeyOf(c)], c.status);
    var seen, all;
    ok, seen, all := ScanCoverage((c: Coverage) => CoverageItemValid(expected, c), enough, items);
    complete := all && |seen| == |expected|;
    if ok {
      forall i | 0 <= i < |items| ensures KeyOf(items[i]) in expected { assert CoverageItemValid(expected, items[i]); }
      AllKeysSeen(expected, items, seen);
    }
  }

  /** Counting the seen keys decides whether every required key was seen. */
  lemma AllKeysSeen(expected: map<string, string>, items: seq<Coverage>, seen: set<string>)
    requires seen == set i | 0 <= i < |items| :: KeyOf(items[i])
    requires forall i :: 0 <= i < |items| ==> KeyOf(items[i]) in expected
    ensures |seen| == |expected| <==> forall key :: key in expected ==> exists i :: 0 <= i < |items| && KeyOf(items[i]) == key
  {
    var keys := expected.Keys;
    assert seen <= keys && |expected| == |keys|;
    if |seen| == |keys| {
      SubsetSameSize(seen, keys);
    }
    assert |seen| == |keys| <==> seen == keys;
    forall key ensures key in seen <==> exists i :: 0 <= i < |items| && KeyOf(items[i]) == key { }
  }

  // ----- Validate -----

  /** Everything but the completeness of a result that calls itself completed. */
  ghost predicate ObeysSchema(r: Review, task: Task, inputHash: string, promptDigest: string)
  {
    && HeaderValid(r, task, inputHash, promptDigest)
    && ItemsValid((f: Finding) => FindingValid(r.schemaVersion, task, f), (f: Finding) => f.id, r.findings.value)
    && ItemsValid(ConfirmationValid, (c: Confirmation) => c.id, r.needsConfirmation.value)
    && ItemsValid(ResidualValid, (x: ResidualRisk) => x.id, r.residualRisks.value)
    && ItemsValid((c: Coverage) => CoverageItemValid(Expected(task.paths), c), KeyOf, r.coverage.value)
  }

  /** The result is accepted; `completed` says it also claims, and has, complete coverage. */
  ghost predicate Accepted(r: Review, task: Task, inputHash: string, promptDigest: string)
  {
    && ObeysSchema(r, task, inputHash, promptDigest)
    && (r.status == "completed" ==> CoverageComplete(Expected(task.paths), r.coverage.value))
  }

  method Validate(r: Review, task: Task, inputHash: string, promptDigest: string) returns (completed: Result<bool, ValidationError>)
    ensures completed.Ok? <==> Accepted(r, task, inputHash, promptDigest)
    ensures completed.Ok? ==> (completed.value <==> r.status == "completed")
  {
    if !HeaderValid(r, task, inputHash, promptDigest) {
      return Err(Header);
    }
    var ok := CheckItems((f: Finding) => FindingValid(r.schemaVersion, task, f), (f: Finding) => f.id, r.findings.value);
    if !ok {
      return Err(BadFinding);
    }
    ok := CheckItems(ConfirmationValid, (c: Confirmation) => c.id, r.needsConfirmation.value);
    if !ok {
      return Err(BadConfirmation);
    }
    ok := CheckItems(ResidualValid, (x: ResidualRisk) => x.id, r.residualRisks.value);
    if !ok {
      return Err(BadResidual);
    }
    var complete;
    ok, complete := CheckCoverage(task, r.coverage.value);
    if !ok {
      return Err(BadCoverage);
    }
    if r.status == "completed" && !complete {
      return Err(Incomplete);
    }
    return Ok(r.status == "completed" && complete);
  }

  // ----- What an accepted, completed result covers -----

  /** A NUL-free scope and path are recovered from their key. */
  lemma {:induction false} CoverageKeyInjective(scope: string, path: string, scope': string, path': string)
    requires '\0' !in scope && '\0' !in path && CoverageKey(scope, path) == CoverageKey(scope', path')
    ensures scope == scope' && path == path'
  {
    var a, b := CoverageKey(scope, path), CoverageKey(scope', path');
    assert a[|scope|] == '\0' && b[|scope'|] == '\0';
    assert forall i :: 0 <= i < |scope| ==> a[i] == scope[i];
    assert forall i :: |scope| < i < |a| ==> a[i] == path[i - |scope| - 1];
    assert |scope| == |scope'|;
    assert scope == a[..|scope|] == b[..|scope'|] == scope';
    assert path == a[|scope| + 1..] == b[|scope'| + 1..] == path';
  }

  /** No two references of a task share scope and path, and neither holds a NUL. */
  ghost predicate CleanPaths(paths: seq<PathRef>)
  {
    && (forall i :: 0 <= i < |paths| ==> '\0' !in paths[i].scope && '\0' !in paths[i].path)
    && forall i, j :: 0 <= i < j < |paths| ==> paths[i].scope != paths[j].scope || paths[i].path != paths[j].path
  }

  lemma {:induction false} ExpectedHolds(paths: seq<PathRef>, i: nat)
    requires CleanPaths(paths) && i < |paths|
    ensures var key := CoverageKey(paths[i].scope, paths[i].path);
      key in Expected(paths) && Expected(paths)[key] == paths[i].requiredCoverage
  {
    var last := |paths| - 1;
    if i < last {
      ExpectedHolds(paths[..last], i);
      if CoverageKey(paths[i].scope, paths[i].path) == CoverageKey(paths[last].scope, paths[last].path) {
        CoverageKeyInjective(paths[i].scope, paths[i].path, paths[last].scope, paths[last].path);
      }
    }
  }

  /** The item is of this scope and path, gives its evidence, and has a status good enough for what the path requires. */
  predicate Covers(c: Coverage, ref: PathRef)
  {
    && c.scope == ref.scope && c.path == ref.path && c.evidence != ""
    && ref.requiredCoverage in ["fully_reviewed", "mechanically_verified", "invariant_checked"]
    && (ref.requiredCoverage == "fully_reviewed" ==> c.status == "fully_reviewed")
    && (ref.requiredCoverage == "mechanically_verified" ==> c.status in ["mechanically_verified", "invariant_checked", "fully_reviewed"])
    && (ref.requiredCoverage == "invariant_checked" ==> c.status in ["invariant_checked", "fully_reviewed"])
  }

  ghost predicate CoversAll(items: seq<Coverage>, paths: seq<PathRef>)
  {
    forall i :: 0 <= i < |paths| ==> exists c :: c in items && Covers(c, paths[i])
  }

  /** A required key comes from a path of the task. */
  lemma {:induction false} ExpectedComesFrom(paths: seq<PathRef>, key: string) returns (i: nat)
    requires key in Expected(paths)
    ensures i < |paths| && CoverageKey(paths[i].scope, paths[i].path) == key && Expected(paths)[key] == paths[i].requiredCoverage
  {
    var last := |paths| - 1;
    if CoverageKey(paths[last].scope, paths[last].path) == key {
      i := last;
    } else {
      i := ExpectedComesFrom(paths[..last], key);
    }
  }

  /** The item that covers a path is the item of the path's key. */
  lemma CoveringItem(task: Task, items: seq<Coverage>, i: nat, k: nat)
    requires ItemsValid((c: Coverage) => CoverageItemValid(Expected(task.paths), c), KeyOf, items) && CoversAll(items, task.paths)
    requires i < |task.paths| && k < |items| && KeyOf(items[k]) == CoverageKey(task.paths[i].scope, task.paths[i].path)
    ensures Covers(items[k], task.paths[i])
  {
    var c :| c in items && Covers(c, task.paths[i]);
    var j :| 0 <= j < |items| && items[j] == c;
    assert KeyOf(items[j]) == KeyOf(items[k]);
  }

  lemma CompleteCovers(task: Task, items: seq<Coverage>)
    requires ItemsValid((c: Coverage) => CoverageItemValid(Expected(task.paths), c), KeyOf, items) && CleanPaths(task.paths)
    requires CoverageComplete(Expected(task.paths), items)
    ensures CoversAll(items, task.paths)
  {
    forall i | 0 <= i < |task.paths| ensures exists c :: c in items && Covers(c, task.paths[i]) {
      var ref := task.paths[i];
      ExpectedHolds(task.paths, i);
      var k :| 0 <= k < |items| && KeyOf(items[k]) == CoverageKey(ref.scope, ref.path);
      CoverageKeyInjective(ref.scope, ref.path, items[k].scope, items[k].path);
      assert CoverageItemValid(Expected(task.paths), items[k]);
      assert items[k] in items && Covers(items[k], ref);
    }
  }

  lemma CoversComplete(task: Task, items: seq<Coverage>)
    requires ItemsValid((c: Coverage) => CoverageItemValid(Expected(task.paths), c), KeyOf, items)
    requires CoversAll(items, task.paths)
    ensures CoverageComplete(Expected(task.paths), items)
  {
    var expected := Expected(task.paths);
    forall key | key in expected ensures exists k :: 0 <= k < |items| && KeyOf(items[k]) == key {
      var i := ExpectedComesFrom(task.paths, key);
      var c :| c in items && Covers(c, task.paths[i]);
      var k :| 0 <= k < |items| && items[k] == c;
      assert KeyOf(items[k]) == key;
    }
    forall k | 0 <= k < |items| && KeyOf(items[k]) in expected ensures CoverageSatisfies(expected[KeyOf(items[k])], items[k].status) {
      var i := ExpectedComesFrom(task.paths, KeyOf(items[k]));
      CoveringItem(task, items, i, k);
    }
  }

  /**
   A result that calls itself completed is accepted exactly when each scope and path of its task has
   an item good enough for it. No item of an accepted one says that its path was only sampled, was
   excluded or was not reviewed.
   */
  lemma CompletedCoversEveryPath(r: Review, task: Task, inputHash: string, promptDigest: string)
    requires ObeysSchema(r, task, inputHash, promptDigest) && r.status == "completed" && CleanPaths(task.paths)
    ensures Accepted(r, task, inputHash, promptDigest) <==> CoversAll(r.coverage.value, task.paths)
    ensures Accepted(r, task, inputHash, promptDigest) ==>
      forall c :: c in r.coverage.value ==> c.status in ["fully_reviewed", "mechanically_verified", "invariant_checked"]
  {
    var items := r.coverage.value;
    if Accepted(r, task, inputHash, promptDigest) {
      CompleteCovers(task, items);
      forall c | c in items ensures c.status in ["fully_reviewed", "mechanically_verified", "invariant_checked"] {
        var k :| 0 <= k < |items| && items[k] == c;
        assert CoverageItemValid(Expected(task.paths), items[k]);
        var i := ExpectedComesFrom(task.paths, KeyOf(items[k]));
        CoveringItem(task, items, i, k);
      }
    }
    if CoversAll(items, task.paths) {
      CoversComplete(task, items);
    }
  }
}
