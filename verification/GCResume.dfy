/**
 Garbage collection is resumable: however often an execution of a plan crashes, at whatever
 write, repeating it succeeds and leaves exactly what an uninterrupted execution leaves.
 */
module GCResume {
  import opened Common
  import opened Digests
  import opened Ordering
  import opened RunStore
  import opened StoreSafety
  import opened StoreOperations

  // ----- The states between the first write and the last -----

  /** The steps an execution of the plan can take. */
  predicate SweepStep(plan: GCPlan, step: FileStep)
  {
    match step
    case MoveRun(p, _) => p == plan.planDigest
    case DropBlob(d) => d in plan.blobDigests
    case PutExecution(x) => x == ExecutionOf(plan, x.executedAt)
    case DamageTrash(p, _) => p == plan.planDigest
    case DropTrash(p) => p == plan.planDigest
    case _ => false
  }

  /** Runs outside the plan are untouched and in place; no run is new. */
  ghost predicate RunsMidway(s: StoreState, plan: GCPlan, t: StoreState)
  {
    && t.active.Keys <= s.active.Keys
    && (forall key :: key in t.active ==> t.active[key] == s.active[key])
    && (forall key :: key in s.active && key !in Keys(plan.candidates) ==> key in t.active)
  }

  /** Blobs outside the plan are untouched and present; no blob is new. */
  ghost predicate BlobsMidway(s: StoreState, plan: GCPlan, t: StoreState)
  {
    && t.blobs.Keys <= s.blobs.Keys
    && (forall d :: d in t.blobs ==> t.blobs[d] == s.blobs[d])
    && (forall d :: d in s.blobs && d !in plan.blobDigests ==> d in t.blobs)
  }

  /** `t` is between the start `s` and the end of an execution of the plan. */
  ghost predicate Midway(s: StoreState, plan: GCPlan, t: StoreState)
  {
    var p := plan.planDigest;
    && t.plans == s.plans && t.trash - {p} == s.trash - {p}
    && RunsMidway(s, plan, t) && BlobsMidway(s, plan, t)
    && if p in t.executions then
         && t.executions == s.executions[p := ExecutionOf(plan, t.executions[p].executedAt)]
         && t.active.Keys !! Keys(plan.candidates)
         && t.blobs.Keys !! Elements(plan.blobDigests)
       else
         && t.executions == s.executions
         && forall key :: key in Keys(plan.candidates) ==> Locate(t, p, key) == Locate(s, p, key)
  }

  lemma MidwayMove(c: Crypto, s: StoreState, plan: GCPlan, t: StoreState, step: FileStep)
    requires plan.planDigest in s.plans && s.plans[plan.planDigest] == plan
    requires Midway(s, plan, t) && SafeStep(c, t, step) && SweepStep(plan, step) && step.MoveRun?
    ensures Midway(s, plan, Apply(t, step))
  {
    var u := Apply(t, step);
    assert u.trash - {plan.planDigest} == t.trash - {plan.planDigest};
    forall key | key in Keys(plan.candidates)
      ensures Locate(u, plan.planDigest, key) == Locate(t, plan.planDigest, key)
    {
    }
  }

  lemma MidwayDrop(c: Crypto, s: StoreState, plan: GCPlan, t: StoreState, step: FileStep)
    requires Midway(s, plan, t) && SweepStep(plan, step) && step.DropBlob?
    ensures Midway(s, plan, Apply(t, step))
  {
    var u := Apply(t, step);
    assert u.active == t.active && u.trash == t.trash;
    forall key ensures Locate(u, plan.planDigest, key) == Locate(t, plan.planDigest, key) { }
  }

  lemma MidwayRecord(c: Crypto, s: StoreState, plan: GCPlan, t: StoreState, step: FileStep)
    requires plan.planDigest in s.plans && s.plans[plan.planDigest] == plan
    requires Midway(s, plan, t) && SafeStep(c, t, step) && SweepStep(plan, step) && step.PutExecution?
    ensures Midway(s, plan, Apply(t, step))
  {
  }

  lemma MidwayPurge(c: Crypto, s: StoreState, plan: GCPlan, t: StoreState, step: FileStep)
    requires Midway(s, plan, t) && SafeStep(c, t, step) && SweepStep(plan, step) && (step.DamageTrash? || step.DropTrash?)
    ensures Midway(s, plan, Apply(t, step))
  {
    var u := Apply(t, step);
    assert u.trash - {plan.planDigest} == t.trash - {plan.planDigest};
  }

  lemma MidwayStep(c: Crypto, s: StoreState, plan: GCPlan, t: StoreState, step: FileStep)
    requires plan.planDigest in s.plans && s.plans[plan.planDigest] == plan
    requires Midway(s, plan, t) && SafeStep(c, t, step) && SweepStep(plan, step)
    ensures Midway(s, plan, Apply(t, step))
  {
    match step
    case MoveRun(_, _) => MidwayMove(c, s, plan, t, step);
    case DropBlob(_) => MidwayDrop(c, s, plan, t, step);
    case PutExecution(_) => MidwayRecord(c, s, plan, t, step);
    case _ => MidwayPurge(c, s, plan, t, step);
  }

  lemma {:induction false} MidwayPrefix(c: Crypto, s: StoreState, plan: GCPlan, t: StoreState, steps: seq<FileStep>, n: nat)
    requires plan.planDigest in s.plans && s.plans[plan.planDigest] == plan
    requires Midway(s, plan, t) && AllSafe(c, t, steps)
    requires forall i :: 0 <= i < |steps| ==> SweepStep(plan, steps[i])
    ensures Midway(s, plan, ApplyAll(t, Prefix(steps, n)))
    decreases |steps|
  {
    if steps != [] && n > 0 {
      MidwayStep(c, s, plan, t, steps[0]);
      MidwayPrefix(c, s, plan, Apply(t, steps[0]), steps[1..], n - 1);
      PrefixRest(steps, n);
    }
  }

  // ----- The steps of an execution -----

  lemma {:induction false} MoveVocabulary(s: StoreState, plan: GCPlan, candidates: seq<GCCandidate>)
    ensures forall i :: 0 <= i < |MoveScript(s, plan.planDigest, candidates).steps| ==>
      SweepStep(plan, MoveScript(s, plan.planDigest, candidates).steps[i])
    decreases |candidates|
  {
    if candidates != [] {
      var key := KeyOf(candidates[0]);
      if key !in s.active {
        MoveVocabulary(s, plan, candidates[1..]);
      } else if key !in TrashOf(s, plan.planDigest) {
        MoveVocabulary(Apply(s, MoveRun(plan.planDigest, key)), plan, candidates[1..]);
      }
    }
  }

  lemma {:induction false} DropVocabulary(c: Crypto, s: StoreState, plan: GCPlan, digests: seq<string>)
    requires forall d :: d in digests ==> d in plan.blobDigests
    ensures forall i :: 0 <= i < |DropScript(c, s, digests).steps| ==> SweepStep(plan, DropScript(c, s, digests).steps[i])
    decreases |digests|
  {
    if digests != [] && ValidDigest(digests[0]) {
      if digests[0] !in s.blobs {
        DropVocabulary(c, s, plan, digests[1..]);
      } else {
        DropVocabulary(c, Apply(s, DropBlob(digests[0])), plan, digests[1..]);
      }
    }
  }

  lemma SweepVocabulary(c: Crypto, s: StoreState, plan: GCPlan, now: int, remains: map<RunKey, RunDir>)
    ensures forall i :: 0 <= i < |SweepScript(c, s, plan, now, remains).steps| ==>
      SweepStep(plan, SweepScript(c, s, plan, now, remains).steps[i])
  {
    var moves := MoveScript(s, plan.planDigest, plan.candidates);
    MoveVocabulary(s, plan, plan.candidates);
    DropVocabulary(c, ApplyAll(s, moves.steps), plan, plan.blobDigests);
  }

  /** Every rename of a sweep goes through when no candidate is in two places. */
  lemma {:induction false} MovesSucceed(s: StoreState, planDigest: string, candidates: seq<GCCandidate>)
    requires forall key :: key in s.active ==> key !in TrashOf(s, planDigest)
    ensures MoveScript(s, planDigest, candidates).result.Ok?
    decreases |candidates|
  {
    if candidates != [] {
      var key := KeyOf(candidates[0]);
      if key !in s.active {
        MovesSucceed(s, planDigest, candidates[1..]);
      } else {
        MovesSucceed(Apply(s, MoveRun(planDigest, key)), planDigest, candidates[1..]);
      }
    }
  }

  lemma {:induction false} DropsSucceed(c: Crypto, s: StoreState, digests: seq<string>)
    requires forall d :: d in digests ==> ValidDigest(d)
    requires forall d :: d in s.blobs ==> c.bytes(s.blobs[d]) == d
    ensures DropScript(c, s, digests).result.Ok?
    decreases |digests|
  {
    if digests != [] {
      if digests[0] !in s.blobs {
        DropsSucceed(c, s, digests[1..]);
      } else {
        DropsSucceed(c, Apply(s, DropBlob(digests[0])), digests[1..]);
      }
    }
  }

  lemma PlannedBlobsValid(c: Crypto, s: StoreState, plan: GCPlan)
    requires PlanAccepted(c, s, plan)
    ensures forall d :: d in plan.blobDigests ==> ValidDigest(d)
  {
    AcceptedBlobs(c, s, plan);
    forall d | d in plan.blobDigests ensures ValidDigest(d) {
      assert d in Elements(plan.blobDigests);
      assert d in CandidateReferences(s, plan);
    }
  }

  /** On a good store an accepted plan is carried out to the end. */
  lemma SweepSucceeds(c: Crypto, s: StoreState, plan: GCPlan, now: int, remains: map<RunKey, RunDir>)
    requires StoreOK(c, s) && PlanAccepted(c, s, plan)
    ensures SweepScript(c, s, plan, now, remains).result == Ok(ExecutionOf(plan, now))
  {
    forall key | key in TrashOf(s, plan.planDigest) ensures key !in s.active {
      assert TrashEntryOK(c, s, plan.planDigest, key, s.trash[plan.planDigest][key]);
    }
    MovesSucceed(s, plan.planDigest, plan.candidates);
    MovesResult(s, plan.planDigest, plan.candidates);
    PlannedBlobsValid(c, s, plan);
    DropsSucceed(c, ApplyAll(s, MoveScript(s, plan.planDigest, plan.candidates).steps), plan.blobDigests);
  }

  // ----- The checks pass again -----

  ghost function LocatedReferences(s: StoreState, plan: GCPlan): set<string>
  {
    set key, d | key in Keys(plan.candidates) && Locate(s, plan.planDigest, key).Some?
                 && d in DirReferences(Locate(s, plan.planDigest, key).value) :: d
  }

  lemma CandidateReferencesAreLocated(s: StoreState, plan: GCPlan)
    ensures CandidateReferences(s, plan) == LocatedReferences(s, plan)
  {
    forall d | d in ActiveReferences(s, Keys(plan.candidates)) ensures d in LocatedReferences(s, plan) {
      var key :| key in Keys(plan.candidates) && key in s.active && d in DirReferences(s.active[key]);
      assert Locate(s, plan.planDigest, key) == Some(s.active[key]);
    }
  }

  lemma MidwayReferences(s: StoreState, plan: GCPlan, t: StoreState)
    requires RunsMidway(s, plan, t)
    requires forall key :: key in Keys(plan.candidates) ==> Locate(t, plan.planDigest, key) == Locate(s, plan.planDigest, key)
    ensures ExpectedBlobs(t, plan) == ExpectedBlobs(s, plan)
  {
    CandidateReferencesAreLocated(s, plan);
    CandidateReferencesAreLocated(t, plan);
    assert LocatedReferences(t, plan) == LocatedReferences(s, plan);
    assert Retained(t, Keys(plan.candidates)) == Retained(s, Keys(plan.candidates)) by {
      forall d ensures d in Retained(t, Keys(plan.candidates)) <==> d in Retained(s, Keys(plan.candidates)) {
        if d in Retained(s, Keys(plan.candidates)) {
          var key :| key in s.active && key !in Keys(plan.candidates) && d in DirReferences(s.active[key]);
          assert key in t.active && d in DirReferences(t.active[key]);
        }
        if d in Retained(t, Keys(plan.candidates)) {
          var key :| key in t.active && key !in Keys(plan.candidates) && d in DirReferences(t.active[key]);
          assert key in s.active && d in DirReferences(s.active[key]);
        }
      }
    }
  }

  lemma MidwayAccepted(c: Crypto, s: StoreState, plan: GCPlan, t: StoreState)
    requires PlanAccepted(c, s, plan) && Midway(s, plan, t) && plan.planDigest !in t.executions
    ensures PlanAccepted(c, t, plan)
  {
    MidwayReferences(s, plan, t);
    forall i | 0 <= i < |plan.candidates| ensures CandidateAccepted(c, t, plan, plan.candidates[i]) {
      assert CandidateAccepted(c, s, plan, plan.candidates[i]);
      assert KeyOf(plan.candidates[i]) in Keys(plan.candidates);
    }
  }

  // ----- Retrying -----

  ghost predicate RetriesOf(planDigest: string, history: seq<Attempt>)
  {
    forall i :: 0 <= i < |history| ==> history[i].op.Execute? && history[i].op.planDigest == planDigest
  }

  lemma ExecuteVocabulary(c: Crypto, t: StoreState, plan: GCPlan, now: int, remains: map<RunKey, RunDir>)
    requires plan.planDigest in t.plans && t.plans[plan.planDigest] == plan
    ensures forall i :: 0 <= i < |ExecuteScript(c, t, plan.planDigest, now, remains).steps| ==>
      SweepStep(plan, ExecuteScript(c, t, plan.planDigest, now, remains).steps[i])
  {
    SweepVocabulary(c, t, plan, now, remains);
  }

  /** Crashed executions only move the store along within the sweep. */
  lemma {:induction false} RetriesStayMidway(c: Crypto, s: StoreState, plan: GCPlan, t: StoreState, history: seq<Attempt>)
    requires plan.planDigest in s.plans && s.plans[plan.planDigest] == plan
    requires StoreOK(c, t) && Midway(s, plan, t) && RetriesOf(plan.planDigest, history)
    ensures var u := Replay(c, t, history); StoreOK(c, u) && Midway(s, plan, u)
    decreases |history|
  {
    if history != [] {
      var a := history[0];
      var steps := Writes(c, t, a.op);
      OperationSafe(c, t, a.op);
      ExecuteVocabulary(c, t, plan, a.op.now, a.op.remains);
      SafeScriptKeepsStoreOK(c, t, steps, a.writes);
      MidwayPrefix(c, s, plan, t, steps, a.writes);
      RetriesStayMidway(c, s, plan, After(c, t, a), history[1..]);
    }
  }

  /** What an execution of the plan leaves. */
  ghost function Swept(s: StoreState, plan: GCPlan, executedAt: int): StoreState
  {
    StoreState(s.active - Keys(plan.candidates), s.trash - {plan.planDigest}, s.blobs - Elements(plan.blobDigests),
               s.plans, s.executions[plan.planDigest := ExecutionOf(plan, executedAt)])
  }

  lemma MidwaySwept(s: StoreState, plan: GCPlan, t: StoreState, executedAt: int)
    requires Midway(s, plan, t) && plan.planDigest !in t.executions
    ensures Swept(t, plan, executedAt) == Swept(s, plan, executedAt)
  {
    var a, b := t.active - Keys(plan.candidates), s.active - Keys(plan.candidates);
    assert a.Keys == b.Keys;
    assert a == b;
    var x, y := t.blobs - Elements(plan.blobDigests), s.blobs - Elements(plan.blobDigests);
    assert x.Keys == y.Keys;
    assert x == y;
  }

  lemma MidwayPurged(s: StoreState, plan: GCPlan, t: StoreState)
    requires Midway(s, plan, t) && plan.planDigest in t.executions
    ensures t.(trash := t.trash - {plan.planDigest}) == Swept(s, plan, t.executions[plan.planDigest].executedAt)
  {
    var b := s.active - Keys(plan.candidates);
    assert t.active.Keys == b.Keys;
    assert t.active == b;
    var y := s.blobs - Elements(plan.blobDigests);
    assert t.blobs.Keys == y.Keys;
    assert t.blobs == y;
  }

  /**
   If an execution would succeed now, then after any number of attempts at it, each crashing
   at any write, repeating it succeeds and leaves exactly what it would have left uninterrupted:
   the candidates gone from the runs and from the trash, the planned blobs gone, nothing else touched.
   */
  lemma RetryCompletes(c: Crypto, s: StoreState, expected: string, first: int, history: seq<Attempt>, now: int, remains: map<RunKey, RunDir>)
    requires StoreOK(c, s) && expected !in s.executions && now != 0
    requires ExecuteScript(c, s, expected, first, remains).result.Ok? && RetriesOf(expected, history)
    ensures var t := Replay(c, s, history);
      var script := ExecuteScript(c, t, expected, now, remains);
      && script.result.Ok?
      && expected in s.plans
      && ApplyAll(t, script.steps) == Swept(s, s.plans[expected], script.result.value.executedAt)
  {
    var plan := s.plans[expected];
    var t := Replay(c, s, history);
    RetriesStayMidway(c, s, plan, s, history);
    if expected in t.executions {
      PurgeSafe(c, t, expected, remains);
      MidwayPurged(s, plan, t);
    } else {
      MidwayAccepted(c, s, plan, t);
      SweepSucceeds(c, t, plan, now, remains);
      SweepSafe(c, t, plan, now, remains);
      MidwaySwept(s, plan, t, now);
    }
  }

  /** Retrying after success changes nothing and returns the recorded execution. */
  lemma RepeatIsIdempotent(c: Crypto, s: StoreState, plan: GCPlan, executedAt: int, now: int, remains: map<RunKey, RunDir>)
    requires ValidDigest(plan.planDigest) && now != 0
    ensures var t := Swept(s, plan, executedAt);
      var script := ExecuteScript(c, t, plan.planDigest, now, remains);
      script.result == Ok(ExecutionOf(plan, executedAt)) && ApplyAll(t, script.steps) == t
  {
    var t := Swept(s, plan, executedAt);
    PurgeSafe(c, t, plan.planDigest, remains);
    assert t.trash - {plan.planDigest} == t.trash;
  }

  // ----- A fresh plan is executable -----

  lemma {:induction false} ConsideredCandidates(c: Crypto, s: StoreState, repository: string, cutoff: int, ids: seq<string>)
    requires RunsOK(c, s) && Candidates(c, s, repository, cutoff, ids).Ok?
    ensures AllConsidered(c, s, repository, cutoff, Candidates(c, s, repository, cutoff, ids).value)
    decreases |ids|
  {
    if ids != [] {
      ConsideredCandidates(c, s, repository, cutoff, ids[1..]);
      var key := RunKey(repository, ids[0]);
      var first := Consider(c, key, Dir(s, key), cutoff);
      if first.value.Some? {
        assert RunOK(c, s.blobs.Keys, key, s.active[key]);
        assert KeyOf(first.value.value) == key;
        assert Considered(c, s, repository, cutoff, first.value.value);
      }
    }
  }

  /** A selected candidate describes an archived, verified, eligible run that is in place. */
  ghost predicate Considered(c: Crypto, s: StoreState, repository: string, cutoff: int, candidate: GCCandidate)
  {
    var key := KeyOf(candidate);
    && candidate.repository == repository && ValidKey(key) && key in s.active && s.active[key].archive.Some?
    && var record := s.active[key].archive.value;
    && RecordIntact(c, record) && RecordNames(record, key) && candidate == CandidateOf(record)
    && Eligible(s.active[key], record, cutoff) && ArchiveVerified(c, s.active[key], record)
  }

  ghost predicate AllConsidered(c: Crypto, s: StoreState, repository: string, cutoff: int, candidates: seq<GCCandidate>)
  {
    forall i :: 0 <= i < |candidates| ==> Considered(c, s, repository, cutoff, candidates[i])
  }

  lemma ConsideredIsAccepted(c: Crypto, s: StoreState, plan: GCPlan, candidate: GCCandidate)
    requires Considered(c, s, plan.repository, plan.asOf - Retention(plan.retentionDays), candidate)
    ensures CandidateAccepted(c, s, plan, candidate)
  {
  }

  /** The blobs a plan lists are the blobs an execution recomputes, as long as its candidates are in place. */
  lemma FreshReferences(s: StoreState, plan: GCPlan)
    requires forall key :: key in Keys(plan.candidates) ==> key in s.active
    ensures CandidateReferences(s, plan) == ActiveReferences(s, Keys(plan.candidates))
  {
    CandidateReferencesAreLocated(s, plan);
    forall d | d in LocatedReferences(s, plan) ensures d in ActiveReferences(s, Keys(plan.candidates)) {
      var key :| key in Keys(plan.candidates) && Locate(s, plan.planDigest, key).Some?
                 && d in DirReferences(Locate(s, plan.planDigest, key).value);
      assert Locate(s, plan.planDigest, key) == Some(s.active[key]);
    }
  }

  lemma FreshPlanAccepted(c: Crypto, s: StoreState, plan: GCPlan)
    requires AllSealed(s)
    requires AllConsidered(c, s, plan.repository, plan.asOf - Retention(plan.retentionDays), plan.candidates)
    requires plan.blobDigests == Listing(ActiveReferences(s, Keys(plan.candidates)) - Retained(s, Keys(plan.candidates)))
    ensures PlanAccepted(c, s, plan)
  {
    forall i | 0 <= i < |plan.candidates| ensures CandidateAccepted(c, s, plan, plan.candidates[i]) {
      ConsideredIsAccepted(c, s, plan, plan.candidates[i]);
    }
    forall key | key in Keys(plan.candidates) ensures key in s.active {
      var i :| 0 <= i < |plan.candidates| && KeyOf(plan.candidates[i]) == key;
      assert Considered(c, s, plan.repository, plan.asOf - Retention(plan.retentionDays), plan.candidates[i]);
    }
    FreshReferences(s, plan);
  }

  /** What a successful planning call says about its plan. */
  ghost predicate FreshPlan(c: Crypto, s: StoreState, plan: GCPlan)
  {
    && PlanIntact(c, plan, plan.planDigest) && AllSealed(s)
    && plan.blobDigests == Listing(ActiveReferences(s, Keys(plan.candidates)) - Retained(s, Keys(plan.candidates)))
  }

  lemma PlanningIsFresh(c: Crypto, s: StoreState, repository: string, days: int, asOf: int, plan: GCPlan)
    requires PlanScript(c, s, repository, days, asOf).result == Ok(plan)
    ensures FreshPlan(c, s, plan)
  {
    assert plan.(planDigest := "") == GCPlan(repository, asOf, days, plan.candidates, plan.blobDigests, "");
  }

  lemma ScanConsidered(c: Crypto, s: StoreState, repository: string, cutoff: int, ids: seq<string>, candidates: seq<GCCandidate>)
    requires RunsOK(c, s) && Candidates(c, s, repository, cutoff, ids) == Ok(candidates)
    ensures AllConsidered(c, s, repository, cutoff, candidates)
  {
    ConsideredCandidates(c, s, repository, cutoff, ids);
  }

  lemma RecordedScanConsidered(c: Crypto, s: StoreState, repository: string, days: int, asOf: int, candidates: seq<GCCandidate>)
    requires RunsOK(c, s)
    requires Candidates(c, s, repository, asOf - Retention(days), RunIDs(s, repository)) == Ok(candidates)
    ensures AllConsidered(c, s, repository, asOf - Retention(days), candidates)
  {
    ScanConsidered(c, s, repository, asOf - Retention(days), RunIDs(s, repository), candidates);
  }

  lemma PlannedConsidered(c: Crypto, s: StoreState, repository: string, days: int, asOf: int, plan: GCPlan)
    requires RunsOK(c, s) && PlanScript(c, s, repository, days, asOf).result == Ok(plan)
    ensures AllConsidered(c, s, plan.repository, plan.asOf - Retention(plan.retentionDays), plan.candidates)
  {
    RecordedScanConsidered(c, s, repository, days, asOf, plan.candidates);
  }

  lemma StoredPlanAccepted(c: Crypto, s: StoreState, plan: GCPlan)
    requires FreshPlan(c, s, plan)
    requires AllConsidered(c, s, plan.repository, plan.asOf - Retention(plan.retentionDays), plan.candidates)
    ensures PlanAccepted(c, Apply(s, PutPlan(plan)), plan)
  {
    FreshPlanAccepted(c, s, plan);
    PlanAcceptedFrame(c, s, Apply(s, PutPlan(plan)), plan);
  }

  lemma PlanAcceptedFrame(c: Crypto, s: StoreState, t: StoreState, plan: GCPlan)
    requires PlanAccepted(c, s, plan) && t.active == s.active && t.trash == s.trash
    ensures PlanAccepted(c, t, plan)
  {
    assert forall key :: Locate(t, plan.planDigest, key) == Locate(s, plan.planDigest, key);
    assert CandidateReferences(t, plan) == CandidateReferences(s, plan);
    assert Retained(t, Keys(plan.candidates)) == Retained(s, Keys(plan.candidates));
    forall i | 0 <= i < |plan.candidates| ensures CandidateAccepted(c, t, plan, plan.candidates[i]) {
      assert CandidateAccepted(c, s, plan, plan.candidates[i]);
    }
  }

  /** A plan just written is executable: if nothing else changes, execution succeeds and sweeps exactly the plan. */
  lemma FreshPlanExecutes(c: Crypto, s: StoreState, repository: string, days: int, asOf: int, plan: GCPlan, now: int, remains: map<RunKey, RunDir>)
    requires StoreOK(c, s) && now != 0 && plan.planDigest !in s.executions && NewDigest(s, plan)
    requires PlanScript(c, s, repository, days, asOf).result == Ok(plan)
    ensures var t := Apply(s, PutPlan(plan));
      var script := ExecuteScript(c, t, plan.planDigest, now, remains);
      script.result == Ok(ExecutionOf(plan, now)) && ApplyAll(t, script.steps) == Swept(t, plan, now)
  {
    PlanningIsFresh(c, s, repository, days, asOf, plan);
    PlannedConsidered(c, s, repository, days, asOf, plan);
    FreshPlanIsExecutable(c, s, plan, now, remains);
  }

  lemma FreshPlanIsExecutable(c: Crypto, s: StoreState, plan: GCPlan, now: int, remains: map<RunKey, RunDir>)
    requires StoreOK(c, s) && now != 0 && plan.planDigest !in s.executions && NewDigest(s, plan)
    requires FreshPlan(c, s, plan)
    requires AllConsidered(c, s, plan.repository, plan.asOf - Retention(plan.retentionDays), plan.candidates)
    ensures var t := Apply(s, PutPlan(plan));
      var script := ExecuteScript(c, t, plan.planDigest, now, remains);
      script.result == Ok(ExecutionOf(plan, now)) && ApplyAll(t, script.steps) == Swept(t, plan, now)
  {
    var t := Apply(s, PutPlan(plan));
    StoredPlanAccepted(c, s, plan);
    SafeStepKeepsStoreOK(c, s, PutPlan(plan));
    AcceptedPlanExecutes(c, t, plan, now, remains);
  }

  lemma AcceptedPlanExecutes(c: Crypto, t: StoreState, plan: GCPlan, now: int, remains: map<RunKey, RunDir>)
    requires StoreOK(c, t) && now != 0 && plan.planDigest !in t.executions
    requires plan.planDigest in t.plans && t.plans[plan.planDigest] == plan
    requires PlanIntact(c, plan, plan.planDigest) && PlanAccepted(c, t, plan)
    ensures var script := ExecuteScript(c, t, plan.planDigest, now, remains);
      script.result == Ok(ExecutionOf(plan, now)) && ApplyAll(t, script.steps) == Swept(t, plan, now)
  {
    SweepSucceeds(c, t, plan, now, remains);
    SweepSafe(c, t, plan, now, remains);
  }
}
