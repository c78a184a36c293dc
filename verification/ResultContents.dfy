/** What an accepted result says: that it was made for this task, about its paths, by a reviewer of one of its perspectives. */
module ResultContents {
  import opened Common
  import opened Digests
  import opened Planner
  import opened Results

  // ----- The header -----

  /** Not every digit of the identifier is zero. */
  predicate SomeDigit(value: string, prefix: string)
  {
    exists i :: |prefix| <= i < |value| && value[i] != '0'
  }

  lemma ZeroDigests(value: string, prefix: string, separator: char, n: nat)
    requires ValidID(value, prefix, n) && n > 0 && prefix != "" && prefix[|prefix| - 1] == separator
    requires separator == ':' || (separator == '-' && ':' !in prefix)
    ensures AllZeroDigest(value) <==> !SomeDigit(value, prefix)
  {
    var last := |prefix| - 1;
    assert value[last] == separator;
    assert forall i :: |prefix| <= i < |value| ==> value[i] == value[|prefix|..][i - |prefix|];
    assert forall i :: |prefix| <= i < |value| ==> value[i] != ':' && value[i] != '-';
    assert forall i :: 0 <= i < |prefix| ==> value[i] == prefix[i];
    assert (':' in value) <==> separator == ':' || ':' in prefix;
    if AllZeroDigest(value) {
      var i :| 0 <= i < |value| - 1 && value[i] == separator && ZeroTail(value, i);
    }
    if !SomeDigit(value, prefix) {
      assert ZeroTail(value, last);
    }
  }

  /** The result is bound to the task, its snapshot and the packet it was made from. */
  ghost predicate BoundTo(r: Review, task: Task, inputHash: string, promptDigest: string)
  {
    && r.schemaVersion in ["1.0", "1.1"]
    && r.taskID == task.id && r.snapshotID == task.snapshotID && r.taskInputHash == inputHash
    && ValidID(r.snapshotID, "snap-", 64) && SomeDigit(r.snapshotID, "snap-")
    && ValidID(r.taskInputHash, "sha256:", 64) && SomeDigit(r.taskInputHash, "sha256:")
    && r.status in ["completed", "incomplete"]
    && r.reviewer.promptDigest == promptDigest && ValidID(promptDigest, "sha256:", 64)
  }

  /** The reviewer names everything about itself, in one line of at most 128 characters for the pass, and has a perspective of the task. */
  ghost predicate Attributed(r: Review, task: Task)
  {
    && "" !in [r.reviewer.provider, r.reviewer.model, r.reviewer.modelFamily]
    && "" !in [r.reviewer.passID, r.reviewer.perspective, r.reviewer.contextIsolation]
    && r.reviewer.perspective in task.perspectives
    && |r.reviewer.passID| <= 128 && forall c :: c in r.reviewer.passID ==> c != '\0' && c != '\r' && c != '\n'
  }

  lemma ReviewerExactly(r: Review, task: Task, promptDigest: string)
    ensures ReviewerValid(r.reviewer, promptDigest) && r.reviewer.perspective in task.perspectives <==>
      Attributed(r, task) && r.reviewer.promptDigest == promptDigest && ValidID(promptDigest, "sha256:", 64)
  {
  }

  lemma HeaderExactly(r: Review, task: Task, inputHash: string, promptDigest: string)
    ensures HeaderValid(r, task, inputHash, promptDigest) <==>
      && BoundTo(r, task, inputHash, promptDigest) && Attributed(r, task)
      && r.coverage.Some? && r.findings.Some? && r.needsConfirmation.Some? && r.residualRisks.Some?
  {
    ReviewerExactly(r, task, promptDigest);
    if ValidID(r.snapshotID, "snap-", 64) {
      ZeroDigests(r.snapshotID, "snap-", '-', 64);
    }
    if ValidID(r.taskInputHash, "sha256:", 64) {
      ZeroDigests(r.taskInputHash, "sha256:", ':', 64);
    }
  }

  // ----- Findings, open questions and residual risks -----

  ghost predicate OnTask(task: Task, path: string)
  {
    exists i :: 0 <= i < |task.paths| && task.paths[i].path == path
  }

  /** A finding says everything it must, about paths of the task, in the terms of the schema, as a provider may report it. */
  ghost predicate Reports(version: string, task: Task, f: Finding)
  {
    && f.id != "" && f.category != "" && f.path != "" && f.triggerPath != ""
    && f.evidence != "" && f.impact != "" && f.remediation != "" && f.verification != ""
    && OnTask(task, f.path) && OnTask(task, f.triggerPath)
    && (f.state == "reported" || f.state == "needs_confirmation")
    && (f.severity == "critical" || f.severity == "high" || f.severity == "medium" || f.severity == "low" || f.severity == "info")
    && (f.confidence == "high" || f.confidence == "medium" || f.confidence == "low")
    && f.line >= 0 && (version == "1.1" ==> !f.lineMissing)
  }

  lemma FindingExactly(version: string, task: Task, f: Finding)
    ensures FindingValid(version, task, f) <==> Reports(version, task, f)
  {
  }

  ghost predicate FindingsReported(r: Review, task: Task)
    requires r.findings.Some?
  {
    && (forall i :: 0 <= i < |r.findings.value| ==> Reports(r.schemaVersion, task, r.findings.value[i]))
    && forall i, j :: 0 <= i < j < |r.findings.value| ==> r.findings.value[i].id != r.findings.value[j].id
  }

  ghost predicate QuestionsAsked(questions: seq<Confirmation>)
  {
    && (forall i :: 0 <= i < |questions| ==> questions[i].id != "" && questions[i].question != "" && questions[i].owner != "")
    && forall i, j :: 0 <= i < j < |questions| ==> questions[i].id != questions[j].id
  }

  ghost predicate RisksOwned(risks: seq<ResidualRisk>)
  {
    && (forall i :: 0 <= i < |risks| ==> risks[i].id != "" && risks[i].risk != "" && risks[i].owner != "" && risks[i].reviewTrigger != "")
    && forall i, j :: 0 <= i < j < |risks| ==> risks[i].id != risks[j].id
  }

  // ----- Coverage -----

  /** The item is about a scope and path of the task, in one of the six statuses, with evidence. */
  ghost predicate Accounts(task: Task, c: Coverage)
  {
    && (exists i :: 0 <= i < |task.paths| && task.paths[i].scope == c.scope && task.paths[i].path == c.path)
    && c.evidence != ""
    && (c.status == "fully_reviewed" || c.status == "mechanically_verified" || c.status == "invariant_checked" ||
        c.status == "sampled" || c.status == "excluded_with_reason" || c.status == "not_reviewed")
  }

  ghost predicate CoverageAccounted(items: seq<Coverage>, task: Task)
  {
    && (forall i :: 0 <= i < |items| ==> Accounts(task, items[i]))
    && forall i, j :: 0 <= i < j < |items| ==> items[i].scope != items[j].scope || items[i].path != items[j].path
  }

  lemma ItemExactly(task: Task, c: Coverage)
    requires CleanPaths(task.paths)
    ensures CoverageItemValid(Expected(task.paths), c) <==> Accounts(task, c)
  {
    if KeyOf(c) in Expected(task.paths) {
      var i := ExpectedComesFrom(task.paths, KeyOf(c));
      CoverageKeyInjective(task.paths[i].scope, task.paths[i].path, c.scope, c.path);
    }
    if i :| 0 <= i < |task.paths| && task.paths[i].scope == c.scope && task.paths[i].path == c.path {
      ExpectedHolds(task.paths, i);
    }
  }

  lemma CoverageExactly(items: seq<Coverage>, task: Task)
    requires CleanPaths(task.paths)
    ensures ItemsValid((c: Coverage) => CoverageItemValid(Expected(task.paths), c), KeyOf, items) <==> CoverageAccounted(items, task)
  {
    forall i | 0 <= i < |items| ensures CoverageItemValid(Expected(task.paths), items[i]) <==> Accounts(task, items[i]) {
      ItemExactly(task, items[i]);
    }
    if forall i :: 0 <= i < |items| ==> Accounts(task, items[i]) {
      forall i, j | 0 <= i < j < |items| && KeyOf(items[i]) == KeyOf(items[j])
        ensures items[i].scope == items[j].scope && items[i].path == items[j].path
      {
        var k :| 0 <= k < |task.paths| && task.paths[k].scope == items[i].scope && task.paths[k].path == items[i].path;
        CoverageKeyInjective(items[i].scope, items[i].path, items[j].scope, items[j].path);
      }
    }
  }

  // ----- Acceptance -----

  /** Everything a result must say, completed or not. */
  ghost predicate Speaks(r: Review, task: Task, inputHash: string, promptDigest: string)
  {
    && BoundTo(r, task, inputHash, promptDigest) && Attributed(r, task)
    && r.coverage.Some? && r.findings.Some? && r.needsConfirmation.Some? && r.residualRisks.Some?
    && FindingsReported(r, task) && QuestionsAsked(r.needsConfirmation.value) && RisksOwned(r.residualRisks.value)
    && CoverageAccounted(r.coverage.value, task)
  }

  lemma FindingsExactly(r: Review, task: Task)
    requires r.findings.Some?
    ensures ItemsValid((f: Finding) => FindingValid(r.schemaVersion, task, f), (f: Finding) => f.id, r.findings.value) <==> FindingsReported(r, task)
  {
    forall f ensures FindingValid(r.schemaVersion, task, f) <==> Reports(r.schemaVersion, task, f) {
      FindingExactly(r.schemaVersion, task, f);
    }
  }

  /**
   A result for a task is accepted exactly when it says all it must, and if it calls itself completed
   also has an item that is good enough for each scope and path of the task.
   */
  lemma AcceptedExactly(r: Review, task: Task, inputHash: string, promptDigest: string)
    requires CleanPaths(task.paths)
    ensures Accepted(r, task, inputHash, promptDigest) <==>
      Speaks(r, task, inputHash, promptDigest) && (r.status == "completed" ==> CoversAll(r.coverage.value, task.paths))
  {
    HeaderExactly(r, task, inputHash, promptDigest);
    if HeaderValid(r, task, inputHash, promptDigest) {
      FindingsExactly(r, task);
      CoverageExactly(r.coverage.value, task);
      if ObeysSchema(r, task, inputHash, promptDigest) && r.status == "completed" {
        CompletedCoversEveryPath(r, task, inputHash, promptDigest);
      }
    }
  }
}
