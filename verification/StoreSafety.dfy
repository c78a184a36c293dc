/**
 What holds in every state the store can reach, whatever operations ran and wherever
 they crashed: blobs of journaled runs are present, journals are accepted with `run.json`
 at most one transition behind, and archived runs still match their records.
 */
module StoreSafety {
  import opened Common
  import opened Digests
  import opened Journal
  import opened RunStore

  // ----- The invariant of one run directory -----

  /** `run.json` is at the journal's state or exactly one allowed transition behind it. */
  predicate AtMostOneBehind(run: Run, journal: seq<Event>)
  {
    var derived := JournalState(journal, run.snapshotID, run.dataClass);
    derived.Some? && (run.state == derived.value || AllowedTransition(run.state, derived.value))
  }

  ghost predicate JournalOK(c: Crypto, key: RunKey, d: RunDir)
  {
    d.contents.journal.Some? ==>
      && d.contents.run.Some? && d.contents.seal.Some?
      && d.contents.run.value.id == key.run && d.contents.run.value.repository == key.repository
      && d.contents.run.value.snapshotID == d.contents.seal.value.snapshotID
      && d.contents.run.value.dataClass in DataClasses
      && ChainValid(c.event, JournalOf(d))
      && AtMostOneBehind(d.contents.run.value, JournalOf(d))
  }

  /** Every digest the snapshot of a journaled run names is a stored blob. */
  ghost predicate BlobsPresent(blobs: set<string>, d: RunDir)
  {
    d.contents.journal.Some? && d.contents.seal.Some? ==>
      forall digest :: digest in DigestsOf(d.contents.seal.value) && digest != "" ==> ValidDigest(digest) && digest in blobs
  }

  /** An archived run is journaled and the verifier accepts it against its own record. */
  ghost predicate ArchiveOK(c: Crypto, key: RunKey, d: RunDir)
  {
    d.archive.Some? ==>
      && ValidKey(key) && d.contents.journal.Some?
      && RecordIntact(c, d.archive.value) && RecordNames(d.archive.value, key)
      && ArchiveVerified(c, d, d.archive.value)
      && d.contents.run.Some?
      && JournalState(JournalOf(d), d.contents.run.value.snapshotID, d.contents.run.value.dataClass)
           == Some(d.contents.run.value.state)
      && d.archive.value.runState == d.contents.run.value.state
  }

  ghost predicate RunOK(c: Crypto, blobs: set<string>, key: RunKey, d: RunDir)
  {
    JournalOK(c, key, d) && BlobsPresent(blobs, d) && ArchiveOK(c, key, d)
  }

  // ----- The invariant of the store -----

  /** A run waiting in a plan's trash is archived, still verifies, and is eligible under that plan. */
  ghost predicate TrashedOK(c: Crypto, key: RunKey, d: RunDir, plan: GCPlan)
  {
    && d.archive.Some? && JournalOK(c, key, d) && ArchiveOK(c, key, d)
    && Eligible(d, d.archive.value, plan.asOf - Retention(plan.retentionDays))
  }

  /**
   A trashed run belongs to its plan and is intact until the plan's execution is recorded. In its
   old place there is nothing, or the empty directory that recovering it has made.
   */
  ghost predicate TrashEntryOK(c: Crypto, s: StoreState, p: string, key: RunKey, d: RunDir)
  {
    && p in s.plans && key in Keys(s.plans[p].candidates) && (key in s.active ==> s.active[key] == EmptyDir)
    && (p !in s.executions ==> TrashedOK(c, key, d, s.plans[p]))
  }

  ghost predicate TrashOK(c: Crypto, s: StoreState)
  {
    forall p, key :: p in s.trash && key in s.trash[p] ==> TrashEntryOK(c, s, p, key, s.trash[p][key])
  }

  ghost predicate RunsOK(c: Crypto, s: StoreState)
  {
    forall key {:trigger RunOK(c, s.blobs.Keys, key, s.active[key])} :: key in s.active ==>
      RunOK(c, s.blobs.Keys, key, s.active[key])
  }

  ghost predicate StoreOK(c: Crypto, s: StoreState)
  {
    && RunsOK(c, s)
    && (forall digest :: digest in s.blobs ==> c.bytes(s.blobs[digest]) == digest)
    && (forall p :: p in s.plans ==> s.plans[p].planDigest == p && c.plan(s.plans[p].(planDigest := "")) == p)
    && (forall p :: p in s.executions ==> s.executions[p].planDigest == p)
    && TrashOK(c, s)
  }

  // ----- Steps that keep it -----

  /** What the order of the writes guarantees at the moment each step is taken. */
  ghost predicate SafeStep(c: Crypto, s: StoreState, step: FileStep)
  {
    if IsDirStep(step) then
      && Dir(s, step.key).archive.None?
      && (step.key !in s.active || InTrash(s, step.key) ==> step.MakeRun?)
      && RunOK(c, s.blobs.Keys, step.key, ApplyToDir(Dir(s, step.key), step))
    else
      match step
      case PutBlob(digest, content) => c.bytes(content) == digest
      case DropBlob(digest) =>
        forall key :: key in s.active ==> digest !in DirReferences(s.active[key])
      case PutPlan(plan) => c.plan(plan.(planDigest := "")) == plan.planDigest && NewDigest(s, plan)
      case MoveRun(p, key) =>
        && key in s.active && s.active[key].archive.Some?
        && p !in s.executions && p in s.plans && key in Keys(s.plans[p].candidates) && key !in TrashOf(s, p)
        && Eligible(s.active[key], s.active[key].archive.value, s.plans[p].asOf - Retention(s.plans[p].retentionDays))
      case PutExecution(x) =>
        && x.planDigest in s.plans
        && (forall key :: key in Keys(s.plans[x.planDigest].candidates) ==> key !in s.active)
        && (forall d :: d in s.plans[x.planDigest].blobDigests ==> d !in s.blobs)
      case DamageTrash(p, _) => p in s.executions
      case DropTrash(p) => p in s.executions
  }

  ghost predicate AllSafe(c: Crypto, s: StoreState, steps: seq<FileStep>)
    decreases |steps|
  {
    steps == [] || (SafeStep(c, s, steps[0]) && AllSafe(c, Apply(s, steps[0]), steps[1..]))
  }

  lemma DropBlobKeepsPresence(blobs: set<string>, d: RunDir, digest: string)
    requires BlobsPresent(blobs, d) && digest !in DirReferences(d)
    ensures BlobsPresent(blobs - {digest}, d)
  {
  }

  /** Nothing enters the trash: plans only grow, nothing is written under the name of a collected run, trash only shrinks. */
  lemma TrashOnlyShrinks(c: Crypto, s: StoreState, t: StoreState)
    requires TrashOK(c, s) && s.executions.Keys <= t.executions.Keys
    requires forall p :: p in s.plans ==> p in t.plans && t.plans[p] == s.plans[p]
    requires forall key :: key in t.active && InTrash(s, key) ==> t.active[key] == EmptyDir
    requires forall p, key :: p in t.trash && key in t.trash[p] ==>
      p in s.trash && key in s.trash[p] && (p in t.executions || t.trash[p][key] == s.trash[p][key])
    ensures TrashOK(c, t)
  {
    forall p, key | p in t.trash && key in t.trash[p] ensures TrashEntryOK(c, t, p, key, t.trash[p][key]) {
      assert p in s.trash && key in s.trash[p];
      assert InTrash(s, key);
    }
  }

  lemma SafeDirStepKeepsStoreOK(c: Crypto, s: StoreState, step: FileStep)
    requires StoreOK(c, s) && SafeStep(c, s, step) && IsDirStep(step)
    ensures StoreOK(c, Apply(s, step))
  {
    CollectedStayEmpty(c, s);
    TrashOnlyShrinks(c, s, Apply(s, step));
  }

  lemma CollectedStayEmpty(c: Crypto, s: StoreState)
    requires TrashOK(c, s)
    ensures forall key :: key in s.active && InTrash(s, key) ==> s.active[key] == EmptyDir
  {
    forall key | key in s.active && InTrash(s, key) ensures s.active[key] == EmptyDir {
      var p :| p in s.trash && key in s.trash[p];
      assert TrashEntryOK(c, s, p, key, s.trash[p][key]);
    }
  }

  /** Only the blobs differ, and every run still has its own. */
  lemma OtherBlobsKeepStoreOK(c: Crypto, s: StoreState, blobs: map<string, string>)
    requires StoreOK(c, s) && forall digest :: digest in blobs ==> c.bytes(blobs[digest]) == digest
    requires forall key :: key in s.active ==> BlobsPresent(blobs.Keys, s.active[key])
    ensures StoreOK(c, s.(blobs := blobs))
  {
    var t := s.(blobs := blobs);
    CollectedStayEmpty(c, s);
    TrashOnlyShrinks(c, s, t);
    forall key | key in t.active ensures RunOK(c, t.blobs.Keys, key, t.active[key]) {
      assert RunOK(c, s.blobs.Keys, key, s.active[key]);
    }
  }

  lemma NewBlobKeepsStoreOK(c: Crypto, s: StoreState, digest: string, content: string)
    requires StoreOK(c, s) && c.bytes(content) == digest
    ensures StoreOK(c, s.(blobs := s.blobs[digest := content]))
  {
    forall key | key in s.active ensures BlobsPresent(s.blobs[digest := content].Keys, s.active[key]) {
      assert RunOK(c, s.blobs.Keys, key, s.active[key]);
    }
    OtherBlobsKeepStoreOK(c, s, s.blobs[digest := content]);
  }

  lemma UnreferencedBlobKeepsStoreOK(c: Crypto, s: StoreState, digest: string)
    requires StoreOK(c, s) && forall key :: key in s.active ==> digest !in DirReferences(s.active[key])
    ensures StoreOK(c, s.(blobs := s.blobs - {digest}))
  {
    forall key | key in s.active ensures BlobsPresent((s.blobs - {digest}).Keys, s.active[key]) {
      assert RunOK(c, s.blobs.Keys, key, s.active[key]);
      DropBlobKeepsPresence(s.blobs.Keys, s.active[key], digest);
      assert (s.blobs - {digest}).Keys == s.blobs.Keys - {digest};
    }
    OtherBlobsKeepStoreOK(c, s, s.blobs - {digest});
  }

  lemma SafeBlobStepKeepsStoreOK(c: Crypto, s: StoreState, step: FileStep)
    requires StoreOK(c, s) && SafeStep(c, s, step) && (step.PutBlob? || step.DropBlob?)
    ensures StoreOK(c, Apply(s, step))
  {
    match step
    case PutBlob(digest, content) => NewBlobKeepsStoreOK(c, s, digest, content);
    case DropBlob(digest) => UnreferencedBlobKeepsStoreOK(c, s, digest);
  }

  lemma SafePlanStepKeepsStoreOK(c: Crypto, s: StoreState, step: FileStep)
    requires StoreOK(c, s) && SafeStep(c, s, step) && step.PutPlan?
    ensures StoreOK(c, Apply(s, step))
  {
    if step.plan.planDigest in s.plans {
      assert Apply(s, step) == s;
    } else {
      NewPlanKeepsStoreOK(c, s, step.plan);
    }
  }

  lemma NewPlanKeepsStoreOK(c: Crypto, s: StoreState, plan: GCPlan)
    requires StoreOK(c, s) && plan.planDigest !in s.plans && c.plan(plan.(planDigest := "")) == plan.planDigest
    ensures StoreOK(c, s.(plans := s.plans[plan.planDigest := plan]))
  {
    CollectedStayEmpty(c, s);
    TrashOnlyShrinks(c, s, s.(plans := s.plans[plan.planDigest := plan]));
  }

  lemma TrashEntryStays(c: Crypto, s: StoreState, t: StoreState, p: string, key: RunKey, d: RunDir)
    requires TrashEntryOK(c, s, p, key, d)
    requires t.plans == s.plans && t.executions == s.executions
    requires key in t.active ==> key in s.active && t.active[key] == s.active[key]
    ensures TrashEntryOK(c, t, p, key, d)
  {
  }

  lemma MoveKeepsTrashOK(c: Crypto, s: StoreState, p: string, key: RunKey, trash: map<string, map<RunKey, RunDir>>)
    requires TrashOK(c, s) && p in s.plans && p !in s.executions && key in Keys(s.plans[p].candidates)
    requires key in s.active && TrashedOK(c, key, s.active[key], s.plans[p])
    requires trash == s.trash[p := TrashOf(s, p)[key := s.active[key]]]
    ensures TrashOK(c, s.(active := s.active - {key}, trash := trash))
  {
    var t := s.(active := s.active - {key}, trash := trash);
    forall q, k | q in t.trash && k in t.trash[q] ensures TrashEntryOK(c, t, q, k, t.trash[q][k]) {
      if q == p && k == key {
        assert t.trash[q][k] == s.active[key];
      } else {
        assert q in s.trash && k in s.trash[q] && t.trash[q][k] == s.trash[q][k];
        TrashEntryStays(c, s, t, q, k, s.trash[q][k]);
      }
    }
  }

  lemma SafeMoveStepKeepsStoreOK(c: Crypto, s: StoreState, step: FileStep)
    requires StoreOK(c, s) && SafeStep(c, s, step) && step.MoveRun?
    ensures StoreOK(c, Apply(s, step))
  {
    var t := Apply(s, step);
    assert RunOK(c, s.blobs.Keys, step.key, s.active[step.key]);
    MoveKeepsTrashOK(c, s, step.planDigest, step.key, t.trash);
    assert t == s.(active := s.active - {step.key}, trash := t.trash);
  }

  lemma SafeExecutionStepKeepsStoreOK(c: Crypto, s: StoreState, step: FileStep)
    requires StoreOK(c, s) && SafeStep(c, s, step) && step.PutExecution?
    ensures StoreOK(c, Apply(s, step))
  {
    CollectedStayEmpty(c, s);
    TrashOnlyShrinks(c, s, Apply(s, step));
  }

  /** Emptying or damaging the trash of executed plans changes nothing else. */
  lemma LessTrashKeepsStoreOK(c: Crypto, s: StoreState, trash: map<string, map<RunKey, RunDir>>)
    requires StoreOK(c, s)
    requires forall p, key :: p in trash && key in trash[p] ==>
      p in s.trash && key in s.trash[p] && (p in s.executions || trash[p][key] == s.trash[p][key])
    ensures StoreOK(c, s.(trash := trash))
  {
    CollectedStayEmpty(c, s);
    TrashOnlyShrinks(c, s, s.(trash := trash));
  }

  lemma SafePurgeStepKeepsStoreOK(c: Crypto, s: StoreState, step: FileStep)
    requires StoreOK(c, s) && SafeStep(c, s, step) && (step.DamageTrash? || step.DropTrash?)
    ensures StoreOK(c, Apply(s, step))
  {
    var p := step.planDigest;
    match step
    case DamageTrash(_, remains) =>
      if p in s.trash {
        LessTrashKeepsStoreOK(c, s, s.trash[p := map k | k in remains && k in s.trash[p] :: remains[k]]);
      }
    case DropTrash(_) => LessTrashKeepsStoreOK(c, s, s.trash - {p});
  }

  lemma SafeStepKeepsStoreOK(c: Crypto, s: StoreState, step: FileStep)
    requires StoreOK(c, s) && SafeStep(c, s, step)
    ensures StoreOK(c, Apply(s, step))
  {
    if IsDirStep(step) {
      SafeDirStepKeepsStoreOK(c, s, step);
    } else if step.PutBlob? || step.DropBlob? {
      SafeBlobStepKeepsStoreOK(c, s, step);
    } else if step.PutPlan? {
      SafePlanStepKeepsStoreOK(c, s, step);
    } else if step.MoveRun? {
      SafeMoveStepKeepsStoreOK(c, s, step);
    } else if step.PutExecution? {
      SafeExecutionStepKeepsStoreOK(c, s, step);
    } else {
      SafePurgeStepKeepsStoreOK(c, s, step);
    }
  }

  /** Stopping a safe script anywhere leaves a good store. */
  lemma {:induction false} SafeScriptKeepsStoreOK(c: Crypto, s: StoreState, steps: seq<FileStep>, n: nat)
    requires StoreOK(c, s) && AllSafe(c, s, steps)
    ensures StoreOK(c, ApplyAll(s, Prefix(steps, n)))
    decreases |steps|
  {
    if steps != [] && n > 0 {
      SafeStepKeepsStoreOK(c, s, steps[0]);
      SafeScriptKeepsStoreOK(c, Apply(s, steps[0]), steps[1..], n - 1);
      PrefixRest(steps, n);
    }
  }

  lemma {:induction false} AllSafeConcat(c: Crypto, s: StoreState, a: seq<FileStep>, b: seq<FileStep>)
    requires AllSafe(c, s, a) && AllSafe(c, ApplyAll(s, a), b)
    ensures AllSafe(c, s, a + b)
    decreases |a|
  {
    if a == [] {
      assert a + b == b;
    } else {
      assert (a + b)[1..] == a[1..] + b;
      AllSafeConcat(c, Apply(s, a[0]), a[1..], b);
    }
  }
}
