/** What the store promises, over every history of operations and crashes. */
module StoreTheorems {
  import opened Common
  import opened Digests
  import opened Text
  import opened Ordering
  import opened Journal
  import opened RunStore
  import opened StoreSafety
  import opened StoreOperations

  // ----- Blobs -----

  /** In every reachable state each journaled run under `repositories/` still has every blob its snapshot names, intact. */
  lemma ReachableBlobsPresent(c: Crypto, history: seq<Attempt>, key: RunKey, digest: string)
    requires AdmissibleHistory(c, EmptyStore, history)
    requires var s := Replay(c, EmptyStore, history);
      && key in s.active && s.active[key].contents.journal.Some?
      && s.active[key].contents.seal.Some?
      && digest in DigestsOf(s.active[key].contents.seal.value) && digest != ""
    ensures var s := Replay(c, EmptyStore, history);
      digest in s.blobs && c.bytes(s.blobs[digest]) == digest
  {
    ReplayKeepsStoreOK(c, EmptyStore, history);
    var s := Replay(c, EmptyStore, history);
    assert RunOK(c, s.blobs.Keys, key, s.active[key]);
  }

  // ----- Journals -----

  /** In every reachable state a journal is accepted and `run.json` is at its state or one allowed transition behind. */
  lemma ReachableJournalsAccepted(c: Crypto, history: seq<Attempt>, key: RunKey)
    requires AdmissibleHistory(c, EmptyStore, history)
    requires var s := Replay(c, EmptyStore, history);
      key in s.active && s.active[key].contents.journal.Some?
    ensures var d := Replay(c, EmptyStore, history).active[key];
      && ChainValid(c.event, d.contents.journal.value)
      && d.contents.run.Some?
      && var run := d.contents.run.value;
         var derived := JournalState(d.contents.journal.value, run.snapshotID, run.dataClass);
      && derived.Some? && (run.state == derived.value || AllowedTransition(run.state, derived.value))
  {
    ReplayKeepsStoreOK(c, EmptyStore, history);
    var s := Replay(c, EmptyStore, history);
    assert RunOK(c, s.blobs.Keys, key, s.active[key]);
  }

  /** The run passes the load guard, at the given state. */
  ghost predicate LoadsAt(c: Crypto, s: StoreState, key: RunKey, state: string)
  {
    LoadRun(c, s, key).Ok? && LoadRun(c, s, key).value.0.state == state
  }

  function DerivedState(d: RunDir): Option<string>
  {
    if d.contents.run.None? then None
    else JournalState(JournalOf(d), d.contents.run.value.snapshotID, d.contents.run.value.dataClass)
  }

  /** Echoing the journal's state always recovers, and the run loads at that state even if recovery crashes after its first write. */
  lemma RecoveryRestoresEquality(c: Crypto, s: StoreState, key: RunKey, now: int, eventTime: int)
    requires StoreOK(c, s) && ValidKey(key)
    requires key in s.active && s.active[key].contents.journal.Some? && s.active[key].archive.None?
    ensures var derived := DerivedState(s.active[key]);
      && derived.Some?
      && var script := RecoverScript(c, s, key, derived.value, now, eventTime);
      && script.result.Ok? && script.result.value.state == derived.value
      && if script.steps == [] then LoadsAt(c, s, key, derived.value)
         else
           && |script.steps| == 2
           && LoadsAt(c, Apply(s, script.steps[0]), key, derived.value)
           && LoadsAt(c, ApplyAll(s, script.steps), key, derived.value)
  {
    var d := s.active[key];
    assert RunOK(c, s.blobs.Keys, key, d);
    var derived := DerivedState(d).value;
    NonEmptyState(derived, JournalOf(d), d.contents.run.value.snapshotID, d.contents.run.value.dataClass);
    var script := RecoverScript(c, s, key, derived, now, eventTime);
    if script.steps == [] {
      LoadableLoads(c, s, key);
    } else {
      RecoveredRunLoads(c, s, key, derived, now, eventTime, script.steps);
    }
  }

  lemma RecoveredRunLoads(c: Crypto, s: StoreState, key: RunKey, derived: string, now: int, eventTime: int, steps: seq<FileStep>)
    requires StoreOK(c, s) && key in s.active && steps == RecoverScript(c, s, key, derived, now, eventTime).steps && steps != []
    ensures |steps| == 2 && LoadsAt(c, Apply(s, steps[0]), key, derived) && LoadsAt(c, ApplyAll(s, steps), key, derived)
  {
    RecoverWrites(c, s, key, derived, now, eventTime);
    RecoverShape(c, s, key, derived, now, eventTime);
    LoadsAfterEach(c, s, key, steps, derived);
  }

  lemma LoadsAfterEach(c: Crypto, s: StoreState, key: RunKey, steps: seq<FileStep>, state: string)
    requires |steps| == 2 && steps[0].PutRun? && steps[0].key == key && steps[0].run.state == state
    requires steps[1].AppendLine? && steps[1].key == key
    requires Loadable(c, Apply(s, steps[0]), key) && Loadable(c, ApplyAll(s, steps), key)
    ensures LoadsAt(c, Apply(s, steps[0]), key, state) && LoadsAt(c, ApplyAll(s, steps), key, state)
  {
    RunKeepsState(s, key, steps, state);
    LoadableAt(c, Apply(s, steps[0]), key, state);
    LoadableAt(c, ApplyAll(s, steps), key, state);
  }

  /** What recovery writes: the run at the echoed state, then an event. */
  lemma RecoverShape(c: Crypto, s: StoreState, key: RunKey, expected: string, now: int, eventTime: int)
    requires key in s.active && s.active[key].archive.None? && RecoverScript(c, s, key, expected, now, eventTime).steps != []
    ensures var steps := RecoverScript(c, s, key, expected, now, eventTime).steps;
      && |steps| == 2 && steps[0].PutRun? && steps[0].key == key && steps[0].run.state == expected
      && steps[1].AppendLine? && steps[1].key == key
  {
  }

  lemma RunKeepsState(s: StoreState, key: RunKey, steps: seq<FileStep>, state: string)
    requires |steps| == 2 && steps[0].PutRun? && steps[0].key == key && steps[0].run.state == state
    requires steps[1].AppendLine? && steps[1].key == key
    ensures RunAt(Apply(s, steps[0]), key, state) && RunAt(ApplyAll(s, steps), key, state)
  {
    assert steps[1..] == [steps[1]] && [steps[1]][1..] == [];
    assert ApplyAll(Apply(s, steps[0]), [steps[1]]) == Apply(Apply(s, steps[0]), steps[1]);
  }

  predicate RunAt(s: StoreState, key: RunKey, state: string)
  {
    key in s.active && s.active[key].contents.run.Some? && s.active[key].contents.run.value.state == state
  }

  lemma LoadableAt(c: Crypto, s: StoreState, key: RunKey, state: string)
    requires Loadable(c, s, key) && RunAt(s, key, state)
    ensures LoadsAt(c, s, key, state)
  {
    LoadableLoads(c, s, key);
  }

  /** An accepted journal never derives the empty state, so the echo is never the empty string. */
  lemma {:induction false} NonEmptyState(derived: string, journal: seq<Event>, snapshotID: string, dataClass: string)
    requires JournalState(journal, snapshotID, dataClass) == Some(derived)
    ensures derived != ""
    decreases |journal|
  {
    if |journal| > 1 {
      var init := journal[..|journal| - 1];
      NonEmptyState(JournalState(init, snapshotID, dataClass).value, init, snapshotID, dataClass);
    }
  }

  /**
   `UpdateRunStateHeld` never re-reads the journal. The journal it extends stays accepted
   exactly when `run.json` was at the journal's state, which is what `LoadRun` checks.
   */
  lemma UpdateNeedsTheGuard(c: Crypto, s: StoreState, key: RunKey, next: string, eventTime: int, now: int)
    requires key in s.active && JournalOK(c, key, s.active[key]) && s.active[key].contents.journal.Some?
    requires UpdateScript(c, s, key, next, eventTime, now).result.Ok?
    ensures var run := s.active[key].contents.run.value;
      var t := ApplyAll(s, UpdateScript(c, s, key, next, eventTime, now).steps);
      JournalState(JournalOf(Dir(t, key)), run.snapshotID, run.dataClass).Some? <==>
      JournalState(JournalOf(s.active[key]), run.snapshotID, run.dataClass) == Some(run.state)
  {
    var d := s.active[key];
    var run := d.contents.run.value;
    var script := UpdateScript(c, s, key, next, eventTime, now);
    AppendLineKeeps(c, d, key, "state_transition", TransitionPayload(run.state, next), eventTime);
    TransitionDecodes(run.state, next);
    var s1 := Apply(s, script.steps[0]);
    var s2 := Apply(s1, script.steps[1]);
    assert script.steps[1..] == [script.steps[1]] && script.steps[1..][1..] == [];
    assert ApplyAll(s1, script.steps[1..]) == s2;
    assert ApplyAll(s, script.steps) == s2;
    assert JournalOf(s2.active[key]) == JournalOf(s1.active[key]);
  }

  // ----- Archives -----

  /** The run is where it was, or waits intact in the trash of a plan that names it. */
  ghost predicate Held(s: StoreState, key: RunKey, d: RunDir)
  {
    || (key in s.active && s.active[key] == d)
    || exists p :: p in s.trash && key in s.trash[p] && s.trash[p][key] == d
  }

  /** A plan naming the run has been executed to the point of its record. */
  ghost predicate Collected(s: StoreState, key: RunKey)
  {
    exists p :: p in s.executions && p in s.plans && key in Keys(s.plans[p].candidates)
  }

  lemma SafeStepKeepsArchived(c: Crypto, s: StoreState, step: FileStep, key: RunKey, d: RunDir)
    requires StoreOK(c, s) && SafeStep(c, s, step)
    requires d.archive.Some? && (Held(s, key, d) || Collected(s, key))
    ensures var t := Apply(s, step); Held(t, key, d) || Collected(t, key)
  {
    PlansOnlyGrow(c, s, step);
    if Collected(s, key) {
      CollectedStays(s, Apply(s, step), key);
    } else if key in s.active && s.active[key] == d {
      SafeStepKeepsInPlace(c, s, step, key, d);
    } else {
      var p :| p in s.trash && key in s.trash[p] && s.trash[p][key] == d;
      assert TrashEntryOK(c, s, p, key, d);
      assert p !in s.executions;
      SafeStepKeepsTrashed(c, s, step, p, key, d);
    }
  }

  lemma CollectedStays(s: StoreState, t: StoreState, key: RunKey)
    requires Collected(s, key) && s.executions.Keys <= t.executions.Keys
    requires forall p :: p in s.plans ==> p in t.plans && t.plans[p] == s.plans[p]
    ensures Collected(t, key)
  {
  }

  lemma SafeStepKeepsInPlace(c: Crypto, s: StoreState, step: FileStep, key: RunKey, d: RunDir)
    requires SafeStep(c, s, step) && d.archive.Some? && key in s.active && s.active[key] == d
    ensures Held(Apply(s, step), key, d)
  {
    if step.MoveRun? && step.key == key {
      assert Apply(s, step).trash[step.planDigest][key] == d;
    }
  }

  lemma SafeStepKeepsTrashed(c: Crypto, s: StoreState, step: FileStep, p: string, key: RunKey, d: RunDir)
    requires SafeStep(c, s, step) && p !in s.executions && p in s.trash && key in s.trash[p] && s.trash[p][key] == d
    ensures Held(Apply(s, step), key, d)
  {
    var t := Apply(s, step);
    assert p in t.trash && key in t.trash[p] && t.trash[p][key] == d;
  }

  lemma PlansOnlyGrow(c: Crypto, s: StoreState, step: FileStep)
    requires StoreOK(c, s) && SafeStep(c, s, step)
    ensures forall p :: p in s.plans ==> p in Apply(s, step).plans && Apply(s, step).plans[p] == s.plans[p]
    ensures s.executions.Keys <= Apply(s, step).executions.Keys
  {
    if !IsDirStep(step) && !step.PutPlan? {
      assert Apply(s, step).plans == s.plans;
    }
  }

  lemma {:induction false} SafeScriptKeepsArchived(c: Crypto, s: StoreState, steps: seq<FileStep>, n: nat, key: RunKey, d: RunDir)
    requires StoreOK(c, s) && AllSafe(c, s, steps)
    requires d.archive.Some? && (Held(s, key, d) || Collected(s, key))
    ensures var t := ApplyAll(s, Prefix(steps, n)); Held(t, key, d) || Collected(t, key)
    decreases |steps|
  {
    if steps != [] && n > 0 {
      SafeStepKeepsStoreOK(c, s, steps[0]);
      SafeStepKeepsArchived(c, s, steps[0], key, d);
      SafeScriptKeepsArchived(c, Apply(s, steps[0]), steps[1..], n - 1, key, d);
      PrefixRest(steps, n);
    }
  }

  /** An archived run directory never changes: later operations leave it, or collect it through a plan that names it. */
  lemma {:induction false} ArchivedRunsAreImmutable(c: Crypto, s: StoreState, history: seq<Attempt>, key: RunKey, d: RunDir)
    requires StoreOK(c, s) && AdmissibleHistory(c, s, history)
    requires d.archive.Some? && (Held(s, key, d) || Collected(s, key))
    ensures var t := Replay(c, s, history); Held(t, key, d) || Collected(t, key)
    decreases |history|
  {
    if history != [] {
      var steps := Writes(c, s, history[0].op);
      OperationSafe(c, s, history[0].op);
      SafeScriptKeepsStoreOK(c, s, steps, history[0].writes);
      SafeScriptKeepsArchived(c, s, steps, history[0].writes, key, d);
      ArchivedRunsAreImmutable(c, After(c, s, history[0]), history[1..], key, d);
    }
  }

  /** A file that records the approval or the publication of an export. */
  ghost predicate KeepsEvidence(d: RunDir)
  {
    exists path :: path in d.contents.files &&
      ("approvals/public-" <= path || "approvals/redaction-" <= path || "exports/public-bundle" <= path || "exports/public-tombstone" <= path)
  }

  lemma EvidenceIsKept(d: RunDir)
    ensures PublicEvidence(d) <==> KeepsEvidence(d)
  {
    assert forall path: string ::
      (exists prefix :: prefix in ProtectedPrefixes && HasPrefix(path, prefix)) <==>
      (HasPrefix(path, "approvals/public-") || HasPrefix(path, "approvals/redaction-") ||
       HasPrefix(path, "exports/public-bundle") || HasPrefix(path, "exports/public-tombstone"));
  }

  /** Archived and held back from every collection: pinned, not exported, or with public-export evidence. */
  ghost predicate HeldBack(d: RunDir)
  {
    d.archive.Some? && (d.archive.value.pinned || d.archive.value.runState != "EXPORTED" || KeepsEvidence(d))
  }

  lemma HeldBackStep(c: Crypto, s: StoreState, step: FileStep, key: RunKey)
    requires SafeStep(c, s, step) && key in s.active && HeldBack(s.active[key])
    ensures key in Apply(s, step).active && Apply(s, step).active[key] == s.active[key]
  {
    EvidenceIsKept(s.active[key]);
  }

  lemma {:induction false} HeldBackPrefix(c: Crypto, s: StoreState, steps: seq<FileStep>, n: nat, key: RunKey)
    requires AllSafe(c, s, steps) && key in s.active && HeldBack(s.active[key])
    ensures var t := ApplyAll(s, Prefix(steps, n)); key in t.active && t.active[key] == s.active[key]
    decreases |steps|
  {
    if steps != [] && n > 0 {
      HeldBackStep(c, s, steps[0], key);
      HeldBackPrefix(c, Apply(s, steps[0]), steps[1..], n - 1, key);
      PrefixRest(steps, n);
    }
  }

  /** An archived run that is pinned, not exported or kept as evidence stays in its place, unchanged, whatever is collected. */
  lemma {:induction false} HeldBackRunsStay(c: Crypto, s: StoreState, history: seq<Attempt>, key: RunKey)
    requires StoreOK(c, s) && AdmissibleHistory(c, s, history) && key in s.active && HeldBack(s.active[key])
    ensures var t := Replay(c, s, history); key in t.active && t.active[key] == s.active[key]
    decreases |history|
  {
    if history != [] {
      var steps := Writes(c, s, history[0].op);
      OperationSafe(c, s, history[0].op);
      SafeScriptKeepsStoreOK(c, s, steps, history[0].writes);
      HeldBackPrefix(c, s, steps, history[0].writes, key);
      HeldBackRunsStay(c, After(c, s, history[0]), history[1..], key);
    }
  }

  /** Once `ArchiveRun` succeeds the verifier accepts that directory against that record, now and after any history. */
  lemma ArchiveStaysVerified(c: Crypto, s: StoreState, r: ArchiveRequest, history: seq<Attempt>)
    requires StoreOK(c, s) && ArchiveScript(c, s, r).result.Ok?
    requires AdmissibleHistory(c, ApplyAll(s, ArchiveScript(c, s, r).steps), history)
    ensures var script := ArchiveScript(c, s, r);
      var t := ApplyAll(s, script.steps);
      && r.key in t.active && t.active[r.key].archive == Some(script.result.value)
      && ArchiveVerified(c, t.active[r.key], script.result.value)
      && var u := Replay(c, t, history);
         Held(u, r.key, t.active[r.key]) || Collected(u, r.key)
  {
    var script := ArchiveScript(c, s, r);
    ArchiveSafe(c, s, r);
    SafeScriptKeepsStoreOK(c, s, script.steps, |script.steps|);
    assert Prefix(script.steps, |script.steps|) == script.steps;
    var t := ApplyAll(s, script.steps);
    ArchiveEndsWithRecord(c, s, r);
    assert RunOK(c, t.blobs.Keys, r.key, t.active[r.key]);
    assert Held(t, r.key, t.active[r.key]);
    ArchivedRunsAreImmutable(c, t, history, r.key, t.active[r.key]);
  }

  lemma LastStep(s: StoreState, steps: seq<FileStep>)
    requires steps != []
    ensures ApplyAll(s, steps) == Apply(ApplyAll(s, steps[..|steps| - 1]), steps[|steps| - 1])
  {
    var last := |steps| - 1;
    ApplyAllSplit(s, steps[..last], steps[last..]);
    assert steps == steps[..last] + steps[last..];
    assert steps[last..][1..] == [];
  }

  lemma ArchiveEndsWithRecord(c: Crypto, s: StoreState, r: ArchiveRequest)
    requires ArchiveScript(c, s, r).result.Ok?
    ensures var script := ArchiveScript(c, s, r);
      var t := ApplyAll(s, script.steps);
      r.key in t.active && t.active[r.key].archive == Some(script.result.value)
  {
    ArchiveShape(c, s, r);
    EndsWithRecord(s, ArchiveScript(c, s, r).steps, r.key, ArchiveScript(c, s, r).result.value);
  }

  lemma ArchiveShape(c: Crypto, s: StoreState, r: ArchiveRequest)
    requires ArchiveScript(c, s, r).result.Ok?
    ensures var script := ArchiveScript(c, s, r);
      script.steps != [] && script.steps[|script.steps| - 1] == PutArchive(r.key, script.result.value)
  {
  }

  lemma EndsWithRecord(s: StoreState, steps: seq<FileStep>, key: RunKey, record: ArchiveRecord)
    requires steps != [] && steps[|steps| - 1] == PutArchive(key, record)
    ensures var t := ApplyAll(s, steps); key in t.active && t.active[key].archive == Some(record)
  {
    LastStep(s, steps);
  }

  /** No command, recovery or second archiving writes anything into an archived run. */
  lemma ArchivedRunsRefuseWrites(c: Crypto, s: StoreState, key: RunKey, actions: seq<Action>, expected: string, now: int, r: ArchiveRequest)
    requires StoreOK(c, s) && key in s.active && s.active[key].archive.Some? && r.key == key
    ensures CommandScript(c, s, key, actions) == Fail(RunArchived)
    ensures s.active[key].contents.run.Some?
    ensures RecoverScript(c, s, key, expected, now, now) == Script([], Ok(s.active[key].contents.run.value))
    ensures ArchiveScript(c, s, r).steps == [] && ArchiveScript(c, s, r).result.Err?
  {
    assert RunOK(c, s.blobs.Keys, key, s.active[key]);
  }

  /** A crash between the archive event and `archive.json` is completed by repeating the call, with no second event. */
  lemma ArchiveResumes(c: Crypto, s: StoreState, r: ArchiveRequest, again: ArchiveRequest)
    requires StoreOK(c, s) && ArchiveScript(c, s, r).result.Ok? && |ArchiveScript(c, s, r).steps| == 2
    requires again == r.(now := again.now, eventTime := again.eventTime) && again.now != 0
    ensures var script := ArchiveScript(c, s, r);
      var s1 := ApplyAll(s, script.steps[..1]);
      ArchiveScript(c, s1, again) == Script([script.steps[1]], script.result)
  {
    ArchiveResumesAfterEvent(c, s, r, again);
    FirstOfTwo(s, ArchiveScript(c, s, r).steps);
  }

  lemma FirstOfTwo(s: StoreState, steps: seq<FileStep>)
    requires |steps| == 2
    ensures ApplyAll(s, steps[..1]) == Apply(s, steps[0])
  {
    assert steps[..1] == [steps[0]] && [steps[0]][1..] == [];
  }

  lemma ArchiveResumesAfterEvent(c: Crypto, s: StoreState, r: ArchiveRequest, again: ArchiveRequest)
    requires StoreOK(c, s) && ArchiveScript(c, s, r).result.Ok? && |ArchiveScript(c, s, r).steps| == 2
    requires again == r.(now := again.now, eventTime := again.eventTime) && again.now != 0
    ensures var script := ArchiveScript(c, s, r);
      ArchiveScript(c, Apply(s, script.steps[0]), again) == Script([script.steps[1]], script.result)
  {
    var script := ArchiveScript(c, s, r);
    ArchiveEventFirst(c, s, r);
    ArchiveStaysArchivable(c, s, r, again);
    ArchiveShape(c, s, r);
    ResumedScript(c, Apply(s, script.steps[0]), r, again, script.result.value);
  }

  /** With the archive event last, archiving writes the sealed record and nothing else, whenever it is asked. */
  lemma ResumedScript(c: Crypto, s: StoreState, r: ArchiveRequest, again: ArchiveRequest, record: ArchiveRecord)
    requires Archivable(c, s, again) && again == r.(now := again.now, eventTime := again.eventTime)
    requires var d := s.active[r.key];
      var last := JournalOf(d)[|JournalOf(d)| - 1];
      && last.body.kind == "run_archived"
      && DecodeFacts(last.body.payload) == Some(ArchiveFacts(r.pinned, TrimSpace(r.reason), d.contents.run.value.state))
      && PutArchive(r.key, record) == PutArchive(r.key, SealedRecord(c, r, d.contents.run.value.state, last, d.contents))
    ensures ArchiveScript(c, s, again) == Script([PutArchive(r.key, record)], Ok(record))
  {
    ArchivableScript(c, s, again);
  }

  lemma ArchiveStaysArchivable(c: Crypto, s: StoreState, r: ArchiveRequest, again: ArchiveRequest)
    requires StoreOK(c, s) && ArchiveScript(c, s, r).result.Ok? && |ArchiveScript(c, s, r).steps| == 2
    requires again == r.(now := again.now, eventTime := again.eventTime) && again.now != 0
    ensures Archivable(c, Apply(s, ArchiveScript(c, s, r).steps[0]), again)
  {
    ArchiveEventFirst(c, s, r);
    ArchiveLoadable(c, s, r);
    LoadableIsArchivable(c, Apply(s, ArchiveScript(c, s, r).steps[0]), again);
  }

  lemma LoadableIsArchivable(c: Crypto, s: StoreState, r: ArchiveRequest)
    requires Loadable(c, s, r.key) && ValidKey(r.key) && TrimSpace(r.reason) != "" && r.now != 0
    requires s.active[r.key].contents.run.value.state in ArchivableStates
    ensures Archivable(c, s, r)
  {
    assert RunOK(c, s.blobs.Keys, r.key, s.active[r.key]);
  }

  // ----- What a garbage-collection plan selects -----

  lemma {:induction false} CandidatesExact(c: Crypto, s: StoreState, repository: string, cutoff: int, ids: seq<string>)
    requires RunsOK(c, s) && forall id :: id in ids ==> RunKey(repository, id) in s.active
    ensures var r := Candidates(c, s, repository, cutoff, ids);
      && r.Ok?
      && forall key :: key in Keys(r.value) <==>
           && key.repository == repository && key.run in ids && s.active[key].archive.Some?
           && Eligible(s.active[key], s.active[key].archive.value, cutoff)
    decreases |ids|
  {
    if ids != [] {
      CandidatesExact(c, s, repository, cutoff, ids[1..]);
      var key := RunKey(repository, ids[0]);
      assert RunOK(c, s.blobs.Keys, key, s.active[key]);
      var first := Consider(c, key, s.active[key], cutoff);
      var rest := Candidates(c, s, repository, cutoff, ids[1..]);
      var all := Candidates(c, s, repository, cutoff, ids);
      if first.value.Some? {
        assert all.value[0] == first.value.value && all.value[1..] == rest.value;
        KeysSplit(all.value);
        assert KeyOf(all.value[0]) == key;
      } else {
        assert all.value == rest.value;
      }
    }
  }

  lemma PlanShape(c: Crypto, s: StoreState, repository: string, days: int, asOf: int)
    requires ValidID(repository, "repo-", 32) && days >= 1 && asOf != 0
    ensures var candidates := Candidates(c, s, repository, asOf - Retention(days), RunIDs(s, repository));
      var script := PlanScript(c, s, repository, days, asOf);
      && (script.result.Ok? <==> candidates.Ok? && AllSealed(s))
      && (script.result.Ok? ==> script.result.value.candidates == candidates.value)
  {
  }

  ghost predicate Selectable(s: StoreState, repository: string, cutoff: int, key: RunKey)
  {
    && key in s.active && key.repository == repository && s.active[key].archive.Some?
    && Eligible(s.active[key], s.active[key].archive.value, cutoff)
  }

  lemma ScanSelectsExactly(c: Crypto, s: StoreState, repository: string, cutoff: int, key: RunKey)
    requires RunsOK(c, s)
    ensures var r := Candidates(c, s, repository, cutoff, RunIDs(s, repository));
      r.Ok? && (key in Keys(r.value) <==> Selectable(s, repository, cutoff, key))
  {
    var ids := RunIDs(s, repository);
    RunIDsExact(s, repository);
    CandidatesExact(c, s, repository, cutoff, ids);
    SelectedByID(s, repository, ids, key);
  }

  /** The candidates name exactly the archived, exported, unpinned, unprotected runs of the repository past the cutoff. */
  ghost predicate SelectsExactly(s: StoreState, repository: string, cutoff: int, candidates: seq<GCCandidate>)
  {
    forall key :: key in Keys(candidates) <==> Selectable(s, repository, cutoff, key)
  }

  lemma RecordedScanSelects(c: Crypto, s: StoreState, repository: string, days: int, asOf: int, plan: GCPlan)
    requires RunsOK(c, s)
    requires Candidates(c, s, repository, asOf - Retention(days), RunIDs(s, repository)) == Ok(plan.candidates)
    ensures SelectsExactly(s, repository, asOf - Retention(days), plan.candidates)
  {
    var cutoff := asOf - Retention(days);
    forall key ensures key in Keys(plan.candidates) <==> Selectable(s, repository, cutoff, key) {
      ScanSelectsExactly(c, s, repository, cutoff, key);
    }
  }

  /** A plan selects exactly the archived, exported, unpinned, unprotected runs of its repository past the cutoff. */
  lemma PlanSelectsExactly(c: Crypto, s: StoreState, repository: string, days: int, asOf: int, plan: GCPlan)
    requires RunsOK(c, s) && PlanScript(c, s, repository, days, asOf).result == Ok(plan)
    ensures SelectsExactly(s, repository, asOf - Retention(days), plan.candidates)
  {
    RecordedScanSelects(c, s, repository, days, asOf, plan);
  }

  lemma NewPlanBlobs(c: Crypto, s: StoreState, repository: string, days: int, asOf: int, candidates: seq<GCCandidate>, d: string)
    ensures d in NewPlan(c, s, repository, days, asOf, candidates).blobDigests <==>
      && (exists key :: key in Keys(candidates) && key in s.active && d in DirReferences(s.active[key]))
      && !exists key :: key in s.active && key !in Keys(candidates) && d in DirReferences(s.active[key])
  {
    var keys := Keys(candidates);
    var removable := ActiveReferences(s, keys) - Retained(s, keys);
    ListingMembers(removable);
    assert d in Listing(removable) <==> d in removable;
  }

  /** A plan removes exactly the blobs that a selected run references and no other run, of any repository, does. */
  lemma PlanRemovesExactly(c: Crypto, s: StoreState, repository: string, days: int, asOf: int, plan: GCPlan, d: string)
    requires PlanScript(c, s, repository, days, asOf).result == Ok(plan)
    ensures d in plan.blobDigests <==>
      && (exists key :: key in Keys(plan.candidates) && key in s.active && d in DirReferences(s.active[key]))
      && !exists key :: key in s.active && key !in Keys(plan.candidates) && d in DirReferences(s.active[key])
  {
    assert plan == NewPlan(c, s, repository, days, asOf, plan.candidates);
    NewPlanBlobs(c, s, repository, days, asOf, plan.candidates, d);
  }

  lemma SelectedByID(s: StoreState, repository: string, ids: seq<string>, key: RunKey)
    requires forall id :: id in ids <==> RunKey(repository, id) in s.active
    ensures key.repository == repository ==> (key.run in ids <==> key in s.active)
  {
    assert key == RunKey(key.repository, key.run);
  }

  lemma RunIDsExact(s: StoreState, repository: string)
    ensures forall id :: id in RunIDs(s, repository) <==> RunKey(repository, id) in s.active
  {
    var members := set key | key in s.active && key.repository == repository :: key.run;
    ListingMembers(members);
    assert RunIDs(s, repository) == Listing(members);
    forall id ensures id in members <==> RunKey(repository, id) in s.active {
      if RunKey(repository, id) in s.active {
        assert RunKey(repository, id).run == id;
      }
    }
  }

  /** On a good store the scan of run directories never fails, so planning needs only that every directory has a snapshot. */
  lemma PlanningSucceeds(c: Crypto, s: StoreState, repository: string, days: int, asOf: int)
    requires RunsOK(c, s) && ValidID(repository, "repo-", 32) && days >= 1 && asOf != 0
    ensures PlanScript(c, s, repository, days, asOf).result.Ok? <==> AllSealed(s)
  {
    PlanShape(c, s, repository, days, asOf);
    ScanSucceeds(c, s, repository, asOf - Retention(days));
  }

  lemma ScanSucceeds(c: Crypto, s: StoreState, repository: string, cutoff: int)
    requires RunsOK(c, s)
    ensures Candidates(c, s, repository, cutoff, RunIDs(s, repository)).Ok?
  {
    RunIDsExact(s, repository);
    CandidatesSucceed(c, s, repository, cutoff, RunIDs(s, repository));
  }

  lemma {:induction false} CandidatesSucceed(c: Crypto, s: StoreState, repository: string, cutoff: int, ids: seq<string>)
    requires RunsOK(c, s) && forall id :: id in ids ==> RunKey(repository, id) in s.active
    ensures Candidates(c, s, repository, cutoff, ids).Ok?
    decreases |ids|
  {
    if ids != [] {
      CandidatesSucceed(c, s, repository, cutoff, ids[1..]);
      var key := RunKey(repository, ids[0]);
      assert RunOK(c, s.blobs.Keys, key, s.active[key]);
      assert Consider(c, key, s.active[key], cutoff).Ok?;
    }
  }
}
