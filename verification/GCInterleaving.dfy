/**
 What other work between a crashed collection and its retry does to it. Commands, archiving and
 planning do no harm. Three things stop the retry until the execution is recorded: a directory
 without a snapshot, a new run that shares a planned blob, and another plan that takes a candidate
 or the last keeper of a blob the plan meant to keep.
 */
module GCInterleaving {
  import opened Common
  import opened Digests
  import opened Ordering
  import opened RunStore
  import opened StoreSafety
  import opened StoreOperations
  import opened StoreTheorems
  import opened StrayDirectories
  import opened GCResume

  // ----- What an operation may touch -----

  predicate HasRun(op: Operation)
  {
    op.Begin? || op.Command? || op.Recover? || op.Archive?
  }

  /** The run an operation is about. */
  function RunOf(op: Operation): RunKey
    requires HasRun(op)
  {
    match op
    case Begin(r) => r.key
    case Command(key, _) => key
    case Recover(key, _, _, _) => key
    case Archive(r) => r.key
  }

  /** Operations write into their own run; only starting a run writes a snapshot; only executions move runs. */
  predicate Touches(op: Operation, step: FileStep)
  {
    if IsDirStep(step) then HasRun(op) && step.key == RunOf(op) && (step.PutSeal? ==> op.Begin?)
    else if step.PutBlob? then op.Begin?
    else if step.PutPlan? then op.Plan?
    else op.Execute? && (step.MoveRun? ==> step.planDigest == op.planDigest)
  }

  predicate AllTouch(op: Operation, steps: seq<FileStep>)
  {
    forall i :: 0 <= i < |steps| ==> Touches(op, steps[i])
  }

  lemma BeginTouches(r: BeginRequest, blobs: seq<FileStep>, steps: seq<FileStep>)
    requires BeginsRun(r, blobs, steps)
    ensures AllTouch(Begin(r), steps)
  {
    forall i | 0 <= i < |steps| ensures Touches(Begin(r), steps[i]) {
      if i < 4 + |blobs| { assert steps[i] == (BeginHead(r) + blobs)[i]; }
    }
  }

  lemma ExecuteTouches(c: Crypto, t: StoreState, p: string, now: int, remains: map<RunKey, RunDir>)
    requires StoreOK(c, t)
    ensures AllTouch(Execute(p, now, remains), ExecuteScript(c, t, p, now, remains).steps)
  {
    if p in t.plans && p !in t.executions {
      ExecuteVocabulary(c, t, t.plans[p], now, remains);
    }
  }

  lemma OperationTouches(c: Crypto, t: StoreState, op: Operation)
    requires StoreOK(c, t)
    ensures AllTouch(op, Writes(c, t, op))
  {
    match op
    case Begin(r) =>
      if r.dataClass in DataClasses {
        var blobs := BeginShape(c, t, r);
        BeginTouches(r, blobs, Writes(c, t, op));
      }
    case Command(key, actions) => ActionsPlain(c, t, key, actions);
    case Recover(key, expected, now, eventTime) =>
      if key in t.active { RecoverPlain(c, t, key, expected, now, eventTime); }
    case Archive(r) => ArchivePlain(c, t, r);
    case Plan(repository, days, asOf) =>
    case Execute(p, now, remains) => ExecuteTouches(c, t, p, now, remains);
  }

  /** Into an archived, empty or absent directory nothing is written; at most it is made. */
  lemma ArchivedIsLeft(c: Crypto, t: StoreState, op: Operation)
    requires StoreOK(c, t) && HasRun(op) && !op.Begin?
    requires RunOf(op) in t.active ==> t.active[RunOf(op)].archive.Some? || t.active[RunOf(op)] == EmptyDir
    ensures forall i :: 0 <= i < |Writes(c, t, op)| ==> Writes(c, t, op)[i].MakeRun?
  {
    if RunOf(op) in t.active {
      assert RunOK(c, t.blobs.Keys, RunOf(op), t.active[RunOf(op)]);
    }
  }

  // ----- The candidates of a plan -----

  /** Every candidate is archived, wherever it is. */
  ghost predicate CandidatesArchived(s: StoreState, plan: GCPlan)
  {
    forall key :: key in Keys(plan.candidates) ==>
      Locate(s, plan.planDigest, key).Some? && Locate(s, plan.planDigest, key).value.archive.Some?
  }

  lemma AcceptedArchived(c: Crypto, s: StoreState, plan: GCPlan)
    requires PlanAccepted(c, s, plan)
    ensures CandidatesArchived(s, plan)
  {
    forall key | key in Keys(plan.candidates)
      ensures Locate(s, plan.planDigest, key).Some? && Locate(s, plan.planDigest, key).value.archive.Some?
    {
      var i :| 0 <= i < |plan.candidates| && KeyOf(plan.candidates[i]) == key;
      assert CandidateAccepted(c, s, plan, plan.candidates[i]);
    }
  }

  /** What an execution finds under the candidate's name is the run it was, or an empty directory. */
  ghost predicate CandidateIntact(s: StoreState, plan: GCPlan, t: StoreState, key: RunKey)
  {
    var was := Locate(s, plan.planDigest, key);
    && (key in t.active ==> t.active[key] == EmptyDir || Some(t.active[key]) == was)
    && (key in TrashOf(t, plan.planDigest) ==> Some(TrashOf(t, plan.planDigest)[key]) == was)
  }

  ghost predicate Intact(s: StoreState, plan: GCPlan, t: StoreState)
  {
    && plan.planDigest in t.plans && t.plans[plan.planDigest] == plan
    && forall key :: key in Keys(plan.candidates) ==> CandidateIntact(s, plan, t, key)
  }

  lemma IntactStep(c: Crypto, s: StoreState, plan: GCPlan, t: StoreState, step: FileStep)
    requires Intact(s, plan, t) && plan.planDigest !in t.executions && SafeStep(c, t, step)
    requires IsDirStep(step) && step.key in Keys(plan.candidates) ==> step.MakeRun?
    ensures Intact(s, plan, Apply(t, step))
  {
    var u := Apply(t, step);
    forall key | key in Keys(plan.candidates) ensures CandidateIntact(s, plan, u, key) {
      assert CandidateIntact(s, plan, t, key);
      if step.MoveRun? && step.key == key {
        assert t.active[key] != EmptyDir;
      }
    }
  }

  ghost predicate OnlyMakes(plan: GCPlan, steps: seq<FileStep>)
  {
    forall i :: 0 <= i < |steps| && IsDirStep(steps[i]) && steps[i].key in Keys(plan.candidates) ==> steps[i].MakeRun?
  }

  lemma {:induction false} IntactPrefix(c: Crypto, s: StoreState, plan: GCPlan, t: StoreState, steps: seq<FileStep>, n: nat)
    requires StoreOK(c, t) && (plan.planDigest in t.executions || Intact(s, plan, t))
    requires AllSafe(c, t, steps) && OnlyMakes(plan, steps)
    ensures var u := ApplyAll(t, Prefix(steps, n)); plan.planDigest in u.executions || Intact(s, plan, u)
    decreases |steps|
  {
    if steps != [] && n > 0 {
      PlansOnlyGrow(c, t, steps[0]);
      if plan.planDigest !in t.executions {
        IntactStep(c, s, plan, t, steps[0]);
      }
      SafeStepKeepsStoreOK(c, t, steps[0]);
      IntactPrefix(c, s, plan, Apply(t, steps[0]), steps[1..], n - 1);
      PrefixRest(steps, n);
    }
  }

  /** While the execution is not recorded, no new run takes the name of a candidate. */
  ghost predicate FreshNames(c: Crypto, t: StoreState, plan: GCPlan, history: seq<Attempt>)
    decreases |history|
  {
    history == [] ||
    (&& (plan.planDigest !in t.executions && history[0].op.Begin? ==> history[0].op.begin.key !in Keys(plan.candidates))
     && FreshNames(c, After(c, t, history[0]), plan, history[1..]))
  }

  lemma OperationMakesOnly(c: Crypto, s: StoreState, plan: GCPlan, t: StoreState, op: Operation)
    requires StoreOK(c, t) && Intact(s, plan, t) && CandidatesArchived(s, plan)
    requires op.Begin? ==> op.begin.key !in Keys(plan.candidates)
    ensures OnlyMakes(plan, Writes(c, t, op))
  {
    OperationTouches(c, t, op);
    if HasRun(op) && !op.Begin? && RunOf(op) in Keys(plan.candidates) {
      assert CandidateIntact(s, plan, t, RunOf(op));
      ArchivedIsLeft(c, t, op);
    }
  }

  lemma RecordedStays(c: Crypto, t: StoreState, steps: seq<FileStep>, n: nat, p: string)
    requires StoreOK(c, t) && AllSafe(c, t, steps) && p in t.executions
    ensures p in ApplyAll(t, Prefix(steps, n)).executions
    decreases |steps|
  {
    if steps != [] && n > 0 {
      PlansOnlyGrow(c, t, steps[0]);
      SafeStepKeepsStoreOK(c, t, steps[0]);
      RecordedStays(c, Apply(t, steps[0]), steps[1..], n - 1, p);
      PrefixRest(steps, n);
    }
  }

  lemma IntactAttempt(c: Crypto, s: StoreState, plan: GCPlan, t: StoreState, a: Attempt)
    requires StoreOK(c, t) && (plan.planDigest in t.executions || Intact(s, plan, t)) && CandidatesArchived(s, plan)
    requires Admissible(c, t, a.op)
    requires plan.planDigest !in t.executions && a.op.Begin? ==> a.op.begin.key !in Keys(plan.candidates)
    ensures var u := After(c, t, a); StoreOK(c, u) && (plan.planDigest in u.executions || Intact(s, plan, u))
  {
    var steps := Writes(c, t, a.op);
    OperationSafe(c, t, a.op);
    SafeScriptKeepsStoreOK(c, t, steps, a.writes);
    if plan.planDigest in t.executions {
      RecordedStays(c, t, steps, a.writes, plan.planDigest);
    } else {
      OperationMakesOnly(c, s, plan, t, a.op);
      IntactPrefix(c, s, plan, t, steps, a.writes);
    }
  }

  lemma {:induction false} IntactHistory(c: Crypto, s: StoreState, plan: GCPlan, t: StoreState, history: seq<Attempt>)
    requires StoreOK(c, t) && (plan.planDigest in t.executions || Intact(s, plan, t)) && CandidatesArchived(s, plan)
    requires AdmissibleHistory(c, t, history) && FreshNames(c, t, plan, history)
    ensures var u := Replay(c, t, history); StoreOK(c, u) && (plan.planDigest in u.executions || Intact(s, plan, u))
    decreases |history|
  {
    if history != [] {
      IntactAttempt(c, s, plan, t, history[0]);
      IntactHistory(c, s, plan, After(c, t, history[0]), history[1..]);
    }
  }

  // ----- When the checks pass again -----

  /** A run outside the plan references the blob. */
  ghost predicate Keeper(plan: GCPlan, t: StoreState, key: RunKey, d: string)
  {
    key in t.active && key !in Keys(plan.candidates) && d in DirReferences(t.active[key])
  }

  ghost predicate HasKeeper(plan: GCPlan, t: StoreState, d: string)
  {
    exists key :: Keeper(plan, t, key, d)
  }

  /** Every candidate is in its place or in the plan's own trash. */
  ghost predicate AllLocated(plan: GCPlan, t: StoreState)
  {
    forall key :: key in Keys(plan.candidates) ==> Locate(t, plan.planDigest, key).Some?
  }

  /** No run outside the plan references a blob the plan removes. */
  ghost predicate NoneShares(plan: GCPlan, t: StoreState)
  {
    forall key, d :: d in plan.blobDigests ==> !Keeper(plan, t, key, d)
  }

  /** Every other blob of a candidate has a keeper. */
  ghost predicate AllKept(plan: GCPlan, t: StoreState)
  {
    forall d :: d in CandidateReferences(t, plan) && d !in plan.blobDigests ==> HasKeeper(plan, t, d)
  }

  lemma RetainedExactly(plan: GCPlan, t: StoreState, d: string)
    ensures d in Retained(t, Keys(plan.candidates)) <==> HasKeeper(plan, t, d)
  {
    if HasKeeper(plan, t, d) {
      var key :| Keeper(plan, t, key, d);
      assert key in t.active && key !in Keys(plan.candidates) && d in DirReferences(t.active[key]);
    }
    if d in Retained(t, Keys(plan.candidates)) {
      var key :| key in t.active && key !in Keys(plan.candidates) && d in DirReferences(t.active[key]);
      assert Keeper(plan, t, key, d);
    }
  }

  /** The blobs to remove, recomputed, are the planned ones exactly when none is shared and every other one is kept. */
  lemma ExpectedExactly(plan: GCPlan, t: StoreState)
    requires Elements(plan.blobDigests) <= CandidateReferences(t, plan)
    ensures CandidateReferences(t, plan) - Retained(t, Keys(plan.candidates)) == Elements(plan.blobDigests)
            <==> NoneShares(plan, t) && AllKept(plan, t)
  {
    var all, retained, planned := CandidateReferences(t, plan), Retained(t, Keys(plan.candidates)), Elements(plan.blobDigests);
    forall d ensures d in retained <==> HasKeeper(plan, t, d) {
      RetainedExactly(plan, t, d);
    }
    assert NoneShares(plan, t) <==> planned !! retained by {
      if NoneShares(plan, t) {
        forall d | d in planned ensures d !in retained { assert d in plan.blobDigests; }
      }
      if planned !! retained {
        forall key, d | d in plan.blobDigests ensures !Keeper(plan, t, key, d) { assert d in planned; }
      }
    }
    assert AllKept(plan, t) <==> all - planned <= retained;
  }

  lemma IntactLocates(s: StoreState, plan: GCPlan, t: StoreState)
    requires Intact(s, plan, t) && CandidatesArchived(s, plan) && AllSealed(t) && AllLocated(plan, t)
    ensures forall key :: key in Keys(plan.candidates) ==> Locate(t, plan.planDigest, key) == Locate(s, plan.planDigest, key)
  {
    forall key | key in Keys(plan.candidates) ensures Locate(t, plan.planDigest, key) == Locate(s, plan.planDigest, key) {
      assert CandidateIntact(s, plan, t, key);
      assert Locate(t, plan.planDigest, key).Some?;
    }
  }

  lemma SameCandidateReferences(s: StoreState, plan: GCPlan, t: StoreState)
    requires forall key :: key in Keys(plan.candidates) ==> Locate(t, plan.planDigest, key) == Locate(s, plan.planDigest, key)
    ensures CandidateReferences(t, plan) == CandidateReferences(s, plan)
  {
    CandidateReferencesAreLocated(s, plan);
    CandidateReferencesAreLocated(t, plan);
    assert LocatedReferences(t, plan) == LocatedReferences(s, plan);
  }

  lemma LocatedAccepted(c: Crypto, s: StoreState, plan: GCPlan, t: StoreState)
    requires PlanAccepted(c, s, plan) && AllSealed(t)
    requires forall key :: key in Keys(plan.candidates) ==> Locate(t, plan.planDigest, key) == Locate(s, plan.planDigest, key)
    ensures PlanAccepted(c, t, plan) <==> NoneShares(plan, t) && AllKept(plan, t)
  {
    SameCandidateReferences(s, plan, t);
    AcceptedBlobs(c, s, plan);
    ExpectedExactly(plan, t);
    ListingIsPlanned(c, s, plan, t);
    forall i | 0 <= i < |plan.candidates| ensures CandidateAccepted(c, t, plan, plan.candidates[i]) {
      assert CandidateAccepted(c, s, plan, plan.candidates[i]);
      assert KeyOf(plan.candidates[i]) in Keys(plan.candidates);
    }
  }

  /** The plan lists its blobs as they are recomputed, so equal sets are equal lists. */
  lemma ListingIsPlanned(c: Crypto, s: StoreState, plan: GCPlan, t: StoreState)
    requires PlanAccepted(c, s, plan)
    ensures ExpectedBlobs(t, plan) == plan.blobDigests <==>
      CandidateReferences(t, plan) - Retained(t, Keys(plan.candidates)) == Elements(plan.blobDigests)
  {
    AcceptedBlobs(c, s, plan);
    ListingOf(CandidateReferences(t, plan) - Retained(t, Keys(plan.candidates)));
  }

  /** While unrecorded, the checks of an execution pass exactly under the four conditions. */
  lemma AcceptedExactly(c: Crypto, s: StoreState, plan: GCPlan, t: StoreState)
    requires PlanAccepted(c, s, plan) && Intact(s, plan, t)
    ensures PlanAccepted(c, t, plan) <==> AllSealed(t) && AllLocated(plan, t) && NoneShares(plan, t) && AllKept(plan, t)
  {
    AcceptedArchived(c, s, plan);
    if PlanAccepted(c, t, plan) {
      AcceptedArchived(c, t, plan);
    }
    if AllSealed(t) && AllLocated(plan, t) {
      IntactLocates(s, plan, t);
      LocatedAccepted(c, s, plan, t);
    }
  }

  // ----- The retry, after any history -----

  /** What a retry that succeeds leaves: the trash emptied, or the candidates and the planned blobs gone and nothing else. */
  ghost function Completed(t: StoreState, plan: GCPlan, executedAt: int): StoreState
  {
    if plan.planDigest in t.executions then t.(trash := t.trash - {plan.planDigest}) else Swept(t, plan, executedAt)
  }

  lemma RecordedRetry(c: Crypto, t: StoreState, plan: GCPlan, now: int, remains: map<RunKey, RunDir>)
    requires StoreOK(c, t) && plan.planDigest in t.executions && ValidDigest(plan.planDigest) && now != 0
    ensures var script := ExecuteScript(c, t, plan.planDigest, now, remains);
      script.result.Ok? && ApplyAll(t, script.steps) == t.(trash := t.trash - {plan.planDigest})
  {
    PurgeSafe(c, t, plan.planDigest, remains);
  }

  lemma UnrecordedRetry(c: Crypto, t: StoreState, plan: GCPlan, now: int, remains: map<RunKey, RunDir>)
    requires StoreOK(c, t) && plan.planDigest !in t.executions && plan.planDigest in t.plans && t.plans[plan.planDigest] == plan
    requires ValidDigest(plan.planDigest) && PlanIntact(c, plan, plan.planDigest) && now != 0
    ensures var script := ExecuteScript(c, t, plan.planDigest, now, remains);
      && (script.result.Ok? <==> PlanAccepted(c, t, plan))
      && (script.result.Ok? ==> ApplyAll(t, script.steps) == Swept(t, plan, script.result.value.executedAt))
  {
    if PlanAccepted(c, t, plan) {
      AcceptedPlanExecutes(c, t, plan, now, remains);
    }
  }

  /** The retry in a state where the candidates are as they were, or the execution is recorded. */
  lemma RetryAt(c: Crypto, s: StoreState, plan: GCPlan, t: StoreState, now: int, remains: map<RunKey, RunDir>)
    requires StoreOK(c, t) && (plan.planDigest in t.executions || Intact(s, plan, t)) && now != 0
    requires ValidDigest(plan.planDigest) && PlanIntact(c, plan, plan.planDigest) && PlanAccepted(c, s, plan)
    ensures var script := ExecuteScript(c, t, plan.planDigest, now, remains);
      && (script.result.Ok? <==>
            || plan.planDigest in t.executions
            || (AllSealed(t) && AllLocated(plan, t) && NoneShares(plan, t) && AllKept(plan, t)))
      && (script.result.Ok? ==> ApplyAll(t, script.steps) == Completed(t, plan, script.result.value.executedAt))
  {
    if plan.planDigest in t.executions {
      RecordedRetry(c, t, plan, now, remains);
    } else {
      AcceptedExactly(c, s, plan, t);
      UnrecordedRetry(c, t, plan, now, remains);
    }
  }

  /** An execution that succeeds has passed every check. */
  lemma SuccessIsAccepted(c: Crypto, s: StoreState, expected: string, first: int, was: map<RunKey, RunDir>)
    requires StoreOK(c, s) && expected !in s.executions && ExecuteScript(c, s, expected, first, was).result.Ok?
    ensures ValidDigest(expected) && expected in s.plans
    ensures var plan := s.plans[expected];
      && plan.planDigest == expected && PlanIntact(c, plan, expected) && PlanAccepted(c, s, plan)
      && CandidatesArchived(s, plan) && Intact(s, plan, s) && AllSealed(s)
  {
    AcceptedArchived(c, s, s.plans[expected]);
  }

  /**
   If an execution would succeed now, then after any history, other plans' executions and new runs
   among it, repeating it succeeds exactly when it has been recorded, or every directory still has
   its snapshot because no attempt strayed, every candidate is where the execution looks for it, no
   run shares a planned blob, and every other blob of a candidate has a keeper.
   */
  lemma RetryExactly(c: Crypto, s: StoreState, expected: string, first: int, was: map<RunKey, RunDir>, history: seq<Attempt>,
                     now: int, remains: map<RunKey, RunDir>)
    requires StoreOK(c, s) && expected !in s.executions && now != 0
    requires ExecuteScript(c, s, expected, first, was).result.Ok?
    requires AdmissibleHistory(c, s, history) && FreshNames(c, s, s.plans[expected], history)
    ensures var plan := s.plans[expected];
      var t := Replay(c, s, history);
      var script := ExecuteScript(c, t, expected, now, remains);
      && (script.result.Ok? <==>
            || expected in t.executions
            || (NoneStrays(c, s, history) && AllLocated(plan, t) && NoneShares(plan, t) && AllKept(plan, t)))
      && (script.result.Ok? ==> ApplyAll(t, script.steps) == Completed(t, plan, script.result.value.executedAt))
  {
    var plan := s.plans[expected];
    SuccessIsAccepted(c, s, expected, first, was);
    IntactHistory(c, s, plan, s, history);
    SealedExactly(c, s, history);
    RetryAt(c, s, plan, Replay(c, s, history), now, remains);
  }

  // ----- The retry, when no other plan is executed -----

  /** Commands, recoveries, archiving, planning, new runs, and executions of this plan. */
  predicate LeavesPlan(p: string, op: Operation)
  {
    op.Execute? ==> op.planDigest == p
  }

  predicate AllLeavePlan(p: string, history: seq<Attempt>)
  {
    forall i :: 0 <= i < |history| ==> LeavesPlan(p, history[i].op)
  }

  /** Every run outside the plan is still in place with its snapshot. */
  ghost predicate OthersStand(s: StoreState, plan: GCPlan, t: StoreState)
  {
    forall key :: key in s.active && key !in Keys(plan.candidates) ==>
      key in t.active && t.active[key].contents.seal == s.active[key].contents.seal
  }

  /** Until the execution is recorded: nothing outside the plan is lost, and no candidate is. */
  ghost predicate Standing(s: StoreState, plan: GCPlan, t: StoreState)
  {
    Intact(s, plan, t) && OthersStand(s, plan, t) && AllLocated(plan, t)
  }

  /** The step makes directories only under a candidate's name, moves only candidates, and seals no standing run. */
  ghost predicate Spares(s: StoreState, plan: GCPlan, step: FileStep)
  {
    && (IsDirStep(step) && step.key in Keys(plan.candidates) ==> step.MakeRun?)
    && (step.PutSeal? ==> step.key !in s.active)
    && (step.MoveRun? ==> step.planDigest == plan.planDigest)
  }

  ghost predicate AllSpare(s: StoreState, plan: GCPlan, steps: seq<FileStep>)
  {
    forall i :: 0 <= i < |steps| ==> Spares(s, plan, steps[i])
  }

  lemma OthersStandStep(c: Crypto, s: StoreState, plan: GCPlan, t: StoreState, step: FileStep)
    requires Standing(s, plan, t) && SafeStep(c, t, step) && Spares(s, plan, step)
    ensures OthersStand(s, plan, Apply(t, step))
  {
  }

  lemma LocatedStep(c: Crypto, s: StoreState, plan: GCPlan, t: StoreState, step: FileStep)
    requires Standing(s, plan, t) && plan.planDigest !in t.executions && SafeStep(c, t, step) && Spares(s, plan, step)
    ensures AllLocated(plan, Apply(t, step))
  {
    forall key | key in Keys(plan.candidates) ensures Locate(Apply(t, step), plan.planDigest, key).Some? {
      assert Locate(t, plan.planDigest, key).Some?;
    }
  }

  lemma {:induction false} StandingPrefix(c: Crypto, s: StoreState, plan: GCPlan, t: StoreState, steps: seq<FileStep>, n: nat)
    requires StoreOK(c, t) && (plan.planDigest in t.executions || Standing(s, plan, t))
    requires AllSafe(c, t, steps) && AllSpare(s, plan, steps)
    ensures var u := ApplyAll(t, Prefix(steps, n)); plan.planDigest in u.executions || Standing(s, plan, u)
    decreases |steps|
  {
    if steps != [] && n > 0 {
      PlansOnlyGrow(c, t, steps[0]);
      if plan.planDigest !in t.executions {
        IntactStep(c, s, plan, t, steps[0]);
        OthersStandStep(c, s, plan, t, steps[0]);
        LocatedStep(c, s, plan, t, steps[0]);
      }
      SafeStepKeepsStoreOK(c, t, steps[0]);
      StandingPrefix(c, s, plan, Apply(t, steps[0]), steps[1..], n - 1);
      PrefixRest(steps, n);
    }
  }

  /** A new run takes no name of a run that stands or of a candidate. */
  lemma NewNameIsFresh(c: Crypto, s: StoreState, plan: GCPlan, t: StoreState, op: Operation)
    requires Standing(s, plan, t) && Admissible(c, t, op) && op.Begin?
    ensures op.begin.key !in Keys(plan.candidates) && op.begin.key !in s.active
  {
    forall key | key in Keys(plan.candidates) ensures key in t.active || InTrash(t, key) {
      assert Locate(t, plan.planDigest, key).Some?;
    }
  }

  lemma OperationSpares(c: Crypto, s: StoreState, plan: GCPlan, t: StoreState, op: Operation)
    requires StoreOK(c, t) && Standing(s, plan, t) && CandidatesArchived(s, plan)
    requires Admissible(c, t, op) && LeavesPlan(plan.planDigest, op)
    ensures op.Begin? ==> op.begin.key !in Keys(plan.candidates)
    ensures AllSpare(s, plan, Writes(c, t, op))
  {
    if op.Begin? { NewNameIsFresh(c, s, plan, t, op); }
    OperationTouches(c, t, op);
    OperationMakesOnly(c, s, plan, t, op);
  }

  lemma StandingAttempt(c: Crypto, s: StoreState, plan: GCPlan, t: StoreState, a: Attempt)
    requires StoreOK(c, t) && (plan.planDigest in t.executions || Standing(s, plan, t)) && CandidatesArchived(s, plan)
    requires Admissible(c, t, a.op) && LeavesPlan(plan.planDigest, a.op)
    ensures plan.planDigest !in t.executions && a.op.Begin? ==> a.op.begin.key !in Keys(plan.candidates)
    ensures var u := After(c, t, a); StoreOK(c, u) && (plan.planDigest in u.executions || Standing(s, plan, u))
  {
    var steps := Writes(c, t, a.op);
    OperationSafe(c, t, a.op);
    SafeScriptKeepsStoreOK(c, t, steps, a.writes);
    if plan.planDigest in t.executions {
      RecordedStays(c, t, steps, a.writes, plan.planDigest);
    } else {
      OperationSpares(c, s, plan, t, a.op);
      StandingPrefix(c, s, plan, t, steps, a.writes);
    }
  }

  lemma {:induction false} StandingHistory(c: Crypto, s: StoreState, plan: GCPlan, t: StoreState, history: seq<Attempt>)
    requires StoreOK(c, t) && (plan.planDigest in t.executions || Standing(s, plan, t)) && CandidatesArchived(s, plan)
    requires AdmissibleHistory(c, t, history) && AllLeavePlan(plan.planDigest, history)
    ensures FreshNames(c, t, plan, history)
    ensures var u := Replay(c, t, history); StoreOK(c, u) && (plan.planDigest in u.executions || Standing(s, plan, u))
    decreases |history|
  {
    if history != [] {
      assert LeavesPlan(plan.planDigest, history[0].op);
      StandingAttempt(c, s, plan, t, history[0]);
      StandingHistory(c, s, plan, After(c, t, history[0]), history[1..]);
    }
  }

  /** A blob that was kept still is, by the same run. */
  lemma KeptStays(s: StoreState, plan: GCPlan, t: StoreState, d: string)
    requires OthersStand(s, plan, t) && HasKeeper(plan, s, d)
    ensures HasKeeper(plan, t, d)
  {
    var key :| Keeper(plan, s, key, d);
    assert Keeper(plan, t, key, d);
  }

  lemma KeptAtFirst(c: Crypto, s: StoreState, plan: GCPlan)
    requires PlanAccepted(c, s, plan)
    ensures NoneShares(plan, s) && AllKept(plan, s)
  {
    AcceptedBlobs(c, s, plan);
    ExpectedExactly(plan, s);
  }

  lemma StandingKeeps(c: Crypto, s: StoreState, plan: GCPlan, t: StoreState)
    requires AllKept(plan, s) && OthersStand(s, plan, t)
    requires CandidateReferences(t, plan) == CandidateReferences(s, plan)
    ensures AllKept(plan, t)
  {
    forall d | d in CandidateReferences(t, plan) && d !in plan.blobDigests ensures HasKeeper(plan, t, d) {
      KeptStays(s, plan, t, d);
    }
  }

  /**
   If an execution would succeed now, then after any history in which no other plan is executed, it
   can be repeated exactly when it has been recorded, or no attempt strayed and no run references a
   planned blob; and until it is recorded, every run outside the plan keeps its place and snapshot.
   */
  lemma RetryAmongOtherWork(c: Crypto, s: StoreState, expected: string, first: int, was: map<RunKey, RunDir>, history: seq<Attempt>,
                            now: int, remains: map<RunKey, RunDir>)
    requires StoreOK(c, s) && expected !in s.executions && now != 0
    requires ExecuteScript(c, s, expected, first, was).result.Ok?
    requires AdmissibleHistory(c, s, history) && AllLeavePlan(expected, history)
    ensures var plan := s.plans[expected];
      var t := Replay(c, s, history);
      var script := ExecuteScript(c, t, expected, now, remains);
      && (script.result.Ok? <==> expected in t.executions || (NoneStrays(c, s, history) && NoneShares(plan, t)))
      && (script.result.Ok? ==> ApplyAll(t, script.steps) == Completed(t, plan, script.result.value.executedAt))
      && (expected !in t.executions ==> OthersStand(s, plan, t))
  {
    var plan := s.plans[expected];
    var t := Replay(c, s, history);
    SuccessIsAccepted(c, s, expected, first, was);
    StandingAtFirst(s, plan);
    StandingHistory(c, s, plan, s, history);
    SealedExactly(c, s, history);
    if expected !in t.executions && AllSealed(t) {
      IntactLocates(s, plan, t);
      SameCandidateReferences(s, plan, t);
      KeptAtFirst(c, s, plan);
      StandingKeeps(c, s, plan, t);
    }
    RetryAt(c, s, plan, t, now, remains);
  }

  lemma StandingAtFirst(s: StoreState, plan: GCPlan)
    requires Intact(s, plan, s) && CandidatesArchived(s, plan)
    ensures Standing(s, plan, s)
  {
  }

  // ----- A run that shares a planned blob -----

  /** A run, the blob it shares with a plan, and what the plan has moved to its trash. */
  datatype Share = Share(plan: GCPlan, key: RunKey, digest: string, moved: map<RunKey, RunDir>)

  /** The plan is not recorded and removes the blob; the run is outside the plan and references it. */
  ghost predicate Sharing(t: StoreState, share: Share)
  {
    var p := share.plan.planDigest;
    && p in t.plans && t.plans[p] == share.plan && p !in t.executions && TrashOf(t, p) == share.moved
    && share.digest in share.plan.blobDigests && Keeper(share.plan, t, share.key, share.digest)
  }

  lemma SharingRefuses(c: Crypto, t: StoreState, share: Share, now: int, remains: map<RunKey, RunDir>)
    requires Sharing(t, share)
    ensures ExecuteScript(c, t, share.plan.planDigest, now, remains).steps == []
    ensures ExecuteScript(c, t, share.plan.planDigest, now, remains).result.Err?
  {
    var plan := share.plan;
    if ExpectedBlobs(t, plan) == plan.blobDigests {
      ListingMembers(CandidateReferences(t, plan) - Retained(t, Keys(plan.candidates)));
      RetainedExactly(plan, t, share.digest);
    }
  }

  /** Nothing is moved or recorded, and this run gets no other snapshot. */
  predicate SparesRun(key: RunKey, step: FileStep)
  {
    Quiet(step) && (step.PutSeal? ==> step.key != key)
  }

  predicate AllSpareRun(key: RunKey, steps: seq<FileStep>)
  {
    forall i :: 0 <= i < |steps| ==> SparesRun(key, steps[i])
  }

  lemma SharingStep(c: Crypto, t: StoreState, share: Share, step: FileStep)
    requires Sharing(t, share) && SafeStep(c, t, step) && SparesRun(share.key, step)
    ensures Sharing(Apply(t, step), share)
  {
  }

  lemma {:induction false} SharingPrefix(c: Crypto, t: StoreState, share: Share, steps: seq<FileStep>, n: nat)
    requires StoreOK(c, t) && Sharing(t, share) && AllSafe(c, t, steps) && AllSpareRun(share.key, steps)
    ensures Sharing(ApplyAll(t, Prefix(steps, n)), share)
    decreases |steps|
  {
    if steps != [] && n > 0 {
      SharingStep(c, t, share, steps[0]);
      SafeStepKeepsStoreOK(c, t, steps[0]);
      SharingPrefix(c, Apply(t, steps[0]), share, steps[1..], n - 1);
      PrefixRest(steps, n);
    }
  }

  lemma SharingAttempt(c: Crypto, t: StoreState, share: Share, a: Attempt)
    requires StoreOK(c, t) && Sharing(t, share) && Admissible(c, t, a.op) && LeavesPlan(share.plan.planDigest, a.op)
    ensures StoreOK(c, After(c, t, a)) && Sharing(After(c, t, a), share)
  {
    var steps := Writes(c, t, a.op);
    OperationSafe(c, t, a.op);
    SafeScriptKeepsStoreOK(c, t, steps, a.writes);
    if a.op.Execute? {
      SharingRefuses(c, t, share, a.op.now, a.op.remains);
    } else {
      OperationTouches(c, t, a.op);
    }
    SharingPrefix(c, t, share, steps, a.writes);
  }

  lemma {:induction false} SharingStays(c: Crypto, t: StoreState, share: Share, later: seq<Attempt>)
    requires StoreOK(c, t) && Sharing(t, share)
    requires AdmissibleHistory(c, t, later) && AllLeavePlan(share.plan.planDigest, later)
    ensures Sharing(Replay(c, t, later), share)
    decreases |later|
  {
    if later != [] {
      assert LeavesPlan(share.plan.planDigest, later[0].op);
      SharingAttempt(c, t, share, later[0]);
      SharingStays(c, After(c, t, later[0]), share, later[1..]);
    }
  }

  /**
   As long as no other plan is executed, a run that references a planned blob of an unrecorded plan
   stays, the plan is refused without a write, and what it has moved stays in its trash.
   */
  lemma SharingBlocksRetry(c: Crypto, t: StoreState, share: Share, later: seq<Attempt>,
                           now: int, remains: map<RunKey, RunDir>)
    requires StoreOK(c, t) && Sharing(t, share)
    requires AdmissibleHistory(c, t, later) && AllLeavePlan(share.plan.planDigest, later)
    ensures var u := Replay(c, t, later);
      var script := ExecuteScript(c, u, share.plan.planDigest, now, remains);
      && script.result.Err? && script.steps == []
      && Keeper(share.plan, u, share.key, share.digest) && share.plan.planDigest !in u.executions
      && TrashOf(u, share.plan.planDigest) == TrashOf(t, share.plan.planDigest)
  {
    SharingStays(c, t, share, later);
    SharingRefuses(c, Replay(c, t, later), share, now, remains);
  }

  // ----- Recovering a run that a crashed execution has moved -----

  lemma FirstMove(s: StoreState, planDigest: string, candidates: seq<GCCandidate>)
    requires candidates != [] && KeyOf(candidates[0]) in s.active && KeyOf(candidates[0]) !in TrashOf(s, planDigest)
    ensures var steps := MoveScript(s, planDigest, candidates).steps;
      steps != [] && steps[0] == MoveRun(planDigest, KeyOf(candidates[0]))
  {
  }

  lemma SweepMovesFirst(c: Crypto, s: StoreState, plan: GCPlan, now: int, remains: map<RunKey, RunDir>)
    requires plan.candidates != [] && KeyOf(plan.candidates[0]) in s.active
    requires KeyOf(plan.candidates[0]) !in TrashOf(s, plan.planDigest)
    ensures var steps := SweepScript(c, s, plan, now, remains).steps;
      steps != [] && steps[0] == MoveRun(plan.planDigest, KeyOf(plan.candidates[0]))
  {
    FirstMove(s, plan.planDigest, plan.candidates);
  }

  lemma OneWrite(s: StoreState, steps: seq<FileStep>)
    requires steps != []
    ensures ApplyAll(s, Prefix(steps, 1)) == Apply(s, steps[0])
  {
    assert Prefix(steps, 1) == [steps[0]] && [steps[0]][1..] == [];
  }

  /** The plan's first candidate is in place, and every check of an execution would pass. */
  ghost predicate Executable(c: Crypto, s: StoreState, plan: GCPlan)
  {
    && plan.planDigest in s.plans && s.plans[plan.planDigest] == plan && plan.planDigest !in s.executions
    && ValidDigest(plan.planDigest) && PlanIntact(c, plan, plan.planDigest) && PlanAccepted(c, s, plan)
    && plan.candidates != [] && KeyOf(plan.candidates[0]) in s.active
  }

  lemma AcceptedSweeps(c: Crypto, s: StoreState, plan: GCPlan, now: int, remains: map<RunKey, RunDir>)
    requires plan.planDigest in s.plans && s.plans[plan.planDigest] == plan && plan.planDigest !in s.executions
    requires ValidDigest(plan.planDigest) && PlanIntact(c, plan, plan.planDigest) && PlanAccepted(c, s, plan) && now != 0
    ensures ExecuteScript(c, s, plan.planDigest, now, remains) == SweepScript(c, s, plan, now, remains)
  {
  }

  lemma ExecutableSweeps(c: Crypto, s: StoreState, plan: GCPlan, now: int, remains: map<RunKey, RunDir>)
    requires Executable(c, s, plan) && now != 0
    ensures Writes(c, s, Execute(plan.planDigest, now, remains)) == SweepScript(c, s, plan, now, remains).steps
  {
    AcceptedSweeps(c, s, plan, now, remains);
    ExecuteWrites(c, s, plan.planDigest, now, remains);
  }

  lemma ExecuteWrites(c: Crypto, s: StoreState, p: string, now: int, remains: map<RunKey, RunDir>)
    ensures Writes(c, s, Execute(p, now, remains)) == ExecuteScript(c, s, p, now, remains).steps
  {
  }

  lemma FirstCandidateInPlace(c: Crypto, s: StoreState, plan: GCPlan)
    requires StoreOK(c, s) && Executable(c, s, plan)
    ensures var key := KeyOf(plan.candidates[0]); ValidKey(key) && key !in TrashOf(s, plan.planDigest)
  {
    var key := KeyOf(plan.candidates[0]);
    assert CandidateAccepted(c, s, plan, plan.candidates[0]);
    JournaledIsNotCollected(c, s, key);
    assert !InTrash(s, key);
  }

  lemma DiesAfterFirstWrite(c: Crypto, s: StoreState, op: Operation, steps: seq<FileStep>)
    requires Writes(c, s, op) == steps && steps != []
    ensures After(c, s, Attempt(op, 1)) == Apply(s, steps[0])
  {
    OneWrite(s, steps);
  }

  /** An execution that dies after its first rename has moved its first candidate, and nothing else. */
  lemma DiesAfterMove(c: Crypto, s: StoreState, plan: GCPlan, now: int, remains: map<RunKey, RunDir>, key: RunKey)
    requires StoreOK(c, s) && Executable(c, s, plan) && key == KeyOf(plan.candidates[0]) && now != 0
    ensures ValidKey(key) && After(c, s, Attempt(Execute(plan.planDigest, now, remains), 1)) == Apply(s, MoveRun(plan.planDigest, key))
  {
    FirstCandidateInPlace(c, s, plan);
    SweepMovesFirst(c, s, plan, now, remains);
    ExecutableSweeps(c, s, plan, now, remains);
    DiesAfterFirstWrite(c, s, Execute(plan.planDigest, now, remains), SweepScript(c, s, plan, now, remains).steps);
  }

  /**
   If a run that a crashed execution has moved is then recovered, the run is in the trash, an empty
   directory is in its place, and whatever happens later the plan is never executed.
   */
  lemma RecoveryStrandsMovedRun(c: Crypto, s: StoreState, p: string, b: Attempt, later: seq<Attempt>)
    requires StoreOK(c, s) && p !in s.executions
    requires b.op.Recover? && b.writes > 0 && ValidKey(b.op.key) && b.op.key !in s.active && b.op.key in TrashOf(s, p)
    requires AdmissibleHistory(c, After(c, s, b), later)
    ensures b.op.key in TrashOf(After(c, s, b), p) && Unsealed(After(c, s, b), b.op.key)
    ensures var t := Replay(c, After(c, s, b), later);
      && Unsealed(t, b.op.key) && p !in t.executions
      && forall now, remains {:trigger ExecuteScript(c, t, p, now, remains)} :: ExecuteScript(c, t, p, now, remains).result.Err?
  {
    RecoverAbsent(c, s, b);
    AttemptUnseals(c, s, b);
    assert LeavesStray(s, b, b.op.key);
    UnsealedStays(c, After(c, s, b), later, b.op.key);
    StrayBlocksCollection(c, s, b, later);
  }
}
