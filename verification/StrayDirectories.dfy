/**
 Run directories without a snapshot. Recovering a run that is not there leaves an empty directory,
 because its lock is taken before anything is read; starting a run that crashes early leaves one
 too. Nothing ever fills or removes such a directory, and while it is there no collection can be
 planned or carried out, for any repository.
 */
module StrayDirectories {
  import opened Digests
  import opened RunStore
  import opened StoreSafety
  import opened StoreOperations
  import opened StoreTheorems

  // ----- Steps that make no directory and write no snapshot -----

  predicate Plain(step: FileStep)
  {
    !step.MakeRun? && !step.PutSeal?
  }

  predicate AllPlain(steps: seq<FileStep>)
  {
    forall i :: 0 <= i < |steps| ==> Plain(steps[i])
  }

  ghost predicate Unsealed(s: StoreState, key: RunKey)
  {
    key in s.active && s.active[key].contents.seal.None?
  }

  /** The same directories are without a snapshot. */
  ghost predicate SameUnsealed(s: StoreState, t: StoreState)
  {
    forall key :: Unsealed(t, key) <==> Unsealed(s, key)
  }

  lemma PlainStep(c: Crypto, s: StoreState, step: FileStep)
    requires RunsOK(c, s) && SafeStep(c, s, step) && Plain(step)
    ensures SameUnsealed(s, Apply(s, step))
  {
    if step.MoveRun? {
      assert RunOK(c, s.blobs.Keys, step.key, s.active[step.key]);
    }
  }

  lemma {:induction false} PlainPrefix(c: Crypto, s: StoreState, steps: seq<FileStep>, n: nat)
    requires StoreOK(c, s) && AllSafe(c, s, steps) && AllPlain(steps)
    ensures SameUnsealed(s, ApplyAll(s, Prefix(steps, n)))
    decreases |steps|
  {
    if steps != [] && n > 0 {
      PlainStep(c, s, steps[0]);
      SafeStepKeepsStoreOK(c, s, steps[0]);
      PlainPrefix(c, Apply(s, steps[0]), steps[1..], n - 1);
      PrefixRest(steps, n);
    }
  }

  // ----- Which operations write only such steps -----

  /** Plain steps in the directory of one run. */
  predicate PlainWithin(steps: seq<FileStep>, key: RunKey)
  {
    forall i :: 0 <= i < |steps| ==> Plain(steps[i]) && IsDirStep(steps[i]) && steps[i].key == key
  }

  predicate OnlyBlobs(steps: seq<FileStep>)
  {
    forall i :: 0 <= i < |steps| ==> steps[i].PutBlob?
  }

  lemma {:induction false} EntriesWriteBlobs(c: Crypto, s: StoreState, captured: seq<CapturedEntry>)
    ensures OnlyBlobs(EntriesScript(c, s, captured).steps)
    decreases |captured|
  {
    if captured != [] {
      var first := EntryScript(c, s, captured[0]);
      assert OnlyBlobs(first.steps);
      EntriesWriteBlobs(c, ApplyAll(s, first.steps), captured[1..]);
    }
  }

  lemma {:induction false} ActionsPlain(c: Crypto, s: StoreState, key: RunKey, actions: seq<Action>)
    ensures PlainWithin(ActionsScript(c, s, key, actions).steps, key)
    decreases |actions|
  {
    if actions != [] {
      var first := ActionScript(c, s, key, actions[0]);
      assert PlainWithin(first.steps, key);
      ActionsPlain(c, ApplyAll(s, first.steps), key, actions[1..]);
    }
  }

  lemma {:induction false} MovesPlain(s: StoreState, planDigest: string, candidates: seq<GCCandidate>)
    ensures AllPlain(MoveScript(s, planDigest, candidates).steps)
    decreases |candidates|
  {
    if candidates != [] {
      var key := KeyOf(candidates[0]);
      MovesPlain(s, planDigest, candidates[1..]);
      MovesPlain(Apply(s, MoveRun(planDigest, key)), planDigest, candidates[1..]);
    }
  }

  lemma {:induction false} DropsPlain(c: Crypto, s: StoreState, digests: seq<string>)
    ensures AllPlain(DropScript(c, s, digests).steps)
    decreases |digests|
  {
    if digests != [] {
      DropsPlain(c, s, digests[1..]);
      DropsPlain(c, Apply(s, DropBlob(digests[0])), digests[1..]);
    }
  }

  lemma SweepPlain(c: Crypto, s: StoreState, plan: GCPlan, now: int, remains: map<RunKey, RunDir>)
    ensures AllPlain(SweepScript(c, s, plan, now, remains).steps)
  {
    var moves := MoveScript(s, plan.planDigest, plan.candidates);
    MovesPlain(s, plan.planDigest, plan.candidates);
    DropsPlain(c, ApplyAll(s, moves.steps), plan.blobDigests);
  }

  lemma ExecutePlain(c: Crypto, s: StoreState, expected: string, now: int, remains: map<RunKey, RunDir>)
    ensures AllPlain(ExecuteScript(c, s, expected, now, remains).steps)
  {
    if expected in s.plans && expected !in s.executions {
      SweepPlain(c, s, s.plans[expected], now, remains);
    }
  }

  lemma RecoverPlain(c: Crypto, s: StoreState, key: RunKey, expected: string, now: int, eventTime: int)
    requires !ValidKey(key) || key in s.active
    ensures PlainWithin(RecoverScript(c, s, key, expected, now, eventTime).steps, key)
  {
  }

  lemma ArchivePlain(c: Crypto, s: StoreState, r: ArchiveRequest)
    ensures PlainWithin(ArchiveScript(c, s, r).steps, r.key)
  {
  }

  /** Every operation but starting a run and recovering an absent one. */
  lemma OperationPlain(c: Crypto, s: StoreState, op: Operation)
    requires !op.Begin? && !(op.Recover? && ValidKey(op.key) && op.key !in s.active)
    ensures AllPlain(Writes(c, s, op))
  {
    match op
    case Command(key, actions) => ActionsPlain(c, s, key, actions);
    case Recover(key, expected, now, eventTime) => RecoverPlain(c, s, key, expected, now, eventTime);
    case Archive(r) => ArchivePlain(c, s, r);
    case Plan(repository, days, asOf) =>
    case Execute(planDigest, now, remains) => ExecutePlain(c, s, planDigest, now, remains);
  }

  // ----- One attempt -----

  /** The attempt recovers a run that is not there, or starts one and dies before its snapshot is written. */
  ghost predicate Strays(s: StoreState, a: Attempt)
  {
    && a.writes > 0
    && match a.op
       case Recover(key, _, _, _) => ValidKey(key) && key !in s.active
       case Begin(r) => r.dataClass in DataClasses && a.writes < 3
       case _ => false
  }

  lemma RecoverAbsent(c: Crypto, s: StoreState, a: Attempt)
    requires a.op.Recover? && Strays(s, a)
    ensures After(c, s, a) == s.(active := s.active[a.op.key := EmptyDir])
  {
    var steps := Writes(c, s, a.op);
    assert steps == [MakeRun(a.op.key)] && steps[1..] == [];
    assert Prefix(steps, a.writes) == steps;
    assert ApplyAll(s, steps) == Apply(s, steps[0]);
  }

  // ----- Starting a run -----

  lemma OneMoreWrite(s: StoreState, steps: seq<FileStep>, n: nat)
    requires n < |steps|
    ensures ApplyAll(s, steps[..n + 1]) == Apply(ApplyAll(s, steps[..n]), steps[n])
  {
    LastStep(s, steps[..n + 1]);
    assert steps[..n + 1][..n] == steps[..n];
  }

  /** Four files of the new run, then blobs, then at most one event. */
  predicate BeginsRun(r: BeginRequest, blobs: seq<FileStep>, steps: seq<FileStep>)
  {
    && OnlyBlobs(blobs) && BeginHead(r) + blobs <= steps
    && forall i :: 4 + |blobs| <= i < |steps| ==> steps[i].AppendLine? && steps[i].key == r.key
  }

  lemma BeginShape(c: Crypto, s: StoreState, r: BeginRequest) returns (blobs: seq<FileStep>)
    requires r.dataClass in DataClasses
    ensures BeginsRun(r, blobs, BeginScript(c, s, r).steps)
  {
    blobs := EntriesScript(c, ApplyAll(s, BeginHead(r)), r.captured).steps;
    EntriesWriteBlobs(c, ApplyAll(s, BeginHead(r)), r.captured);
  }

  /** Directory, `run.json` and snapshot come first; no later write makes a directory or a snapshot. */
  lemma PlainAfterHead(r: BeginRequest, blobs: seq<FileStep>, steps: seq<FileStep>)
    requires BeginsRun(r, blobs, steps)
    ensures |steps| >= 4 && steps[..3] == BeginHead(r)[..3] && AllPlain(steps[3..])
  {
    forall i | 3 <= i < |steps| ensures Plain(steps[i]) {
      if i < 4 + |blobs| { assert steps[i] == (BeginHead(r) + blobs)[i]; }
    }
  }

  /** The first three writes touch the run's own directory alone, which has a snapshot after the third. */
  lemma FirstWrites(s: StoreState, r: BeginRequest, steps: seq<FileStep>, n: nat)
    requires r.key !in s.active && |steps| >= 3 && steps[..3] == BeginHead(r)[..3] && 1 <= n <= 3
    ensures forall key :: Unsealed(ApplyAll(s, steps[..n]), key) <==> Unsealed(s, key) || (key == r.key && n < 3)
    decreases n
  {
    assert steps[..3][n - 1] == steps[n - 1];
    OneMoreWrite(s, steps, n - 1);
    if n == 1 {
      assert steps[..0] == [];
    } else {
      FirstWrites(s, r, steps, n - 1);
    }
  }

  lemma {:induction false} AllSafeRest(c: Crypto, s: StoreState, steps: seq<FileStep>, n: nat)
    requires AllSafe(c, s, steps) && n <= |steps|
    ensures AllSafe(c, ApplyAll(s, steps[..n]), steps[n..])
    decreases n
  {
    if n > 0 {
      AllSafeRest(c, Apply(s, steps[0]), steps[1..], n - 1);
      assert steps[..n][1..] == steps[1..][..n - 1] && steps[1..][n - 1..] == steps[n..];
    } else {
      assert steps[..0] == [] && steps[0..] == steps;
    }
  }

  lemma PrefixSplit(s: StoreState, steps: seq<FileStep>, k: nat, n: nat)
    requires k <= |steps| && k <= n
    ensures ApplyAll(s, Prefix(steps, n)) == ApplyAll(ApplyAll(s, steps[..k]), Prefix(steps[k..], n - k))
  {
    var rest := Prefix(steps[k..], n - k);
    assert Prefix(steps, n) == steps[..k] + rest;
    ApplyAllSplit(s, steps[..k], rest);
  }

  lemma StoreOKAfter(c: Crypto, s: StoreState, steps: seq<FileStep>, k: nat)
    requires StoreOK(c, s) && AllSafe(c, s, steps) && k <= |steps|
    ensures StoreOK(c, ApplyAll(s, steps[..k]))
  {
    SafeScriptKeepsStoreOK(c, s, steps, k);
    assert Prefix(steps, k) == steps[..k];
  }

  lemma PlainTail(c: Crypto, s: StoreState, steps: seq<FileStep>, k: nat, n: nat, t: StoreState, rest: seq<FileStep>)
    requires k <= |steps| && k <= n && t == ApplyAll(s, steps[..k]) && rest == steps[k..]
    requires StoreOK(c, t) && AllSafe(c, t, rest) && AllPlain(rest)
    ensures SameUnsealed(t, ApplyAll(s, Prefix(steps, n)))
  {
    PrefixSplit(s, steps, k, n);
    PlainPrefix(c, t, rest, n - k);
  }

  /** Starting a run changes no other directory, and the run's own has a snapshot from the third write on. */
  lemma BeginUnseals(c: Crypto, s: StoreState, r: BeginRequest, steps: seq<FileStep>, n: nat)
    requires StoreOK(c, s) && AllSafe(c, s, steps) && r.key !in s.active && n >= 1
    requires |steps| >= 3 && steps[..3] == BeginHead(r)[..3] && AllPlain(steps[3..])
    ensures forall key :: Unsealed(ApplyAll(s, Prefix(steps, n)), key) <==> Unsealed(s, key) || (key == r.key && n < 3)
  {
    if n >= 3 {
      FirstWrites(s, r, steps, 3);
      AllSafeRest(c, s, steps, 3);
      StoreOKAfter(c, s, steps, 3);
      PlainTail(c, s, steps, 3, n, ApplyAll(s, steps[..3]), steps[3..]);
    } else {
      FirstWrites(s, r, steps, n);
      assert Prefix(steps, n) == steps[..n];
    }
  }

  // ----- Any history -----

  /** Which directory an attempt leaves without a snapshot. */
  ghost predicate LeavesStray(s: StoreState, a: Attempt, key: RunKey)
  {
    Strays(s, a) && key == if a.op.Begin? then a.op.begin.key else a.op.key
  }

  lemma BeginAttemptUnseals(c: Crypto, s: StoreState, a: Attempt)
    requires StoreOK(c, s) && Admissible(c, s, a.op) && a.op.Begin? && a.writes > 0
    ensures forall key :: Unsealed(After(c, s, a), key) <==> Unsealed(s, key) || LeavesStray(s, a, key)
  {
    var r, steps := a.op.begin, BeginScript(c, s, a.op.begin).steps;
    if r.dataClass in DataClasses {
      var blobs := BeginShape(c, s, r);
      PlainAfterHead(r, blobs, steps);
      BeginSafe(c, s, r);
      BeginUnseals(c, s, r, steps, a.writes);
    } else {
      assert Prefix(steps, a.writes) == [];
    }
  }

  lemma OtherAttemptUnseals(c: Crypto, s: StoreState, a: Attempt)
    requires StoreOK(c, s) && AllSafe(c, s, Writes(c, s, a.op)) && !a.op.Begin? && a.writes > 0
    ensures forall key :: Unsealed(After(c, s, a), key) <==> Unsealed(s, key) || LeavesStray(s, a, key)
  {
    if Strays(s, a) {
      RecoverAbsent(c, s, a);
    } else {
      OperationPlain(c, s, a.op);
      PlainPrefix(c, s, Writes(c, s, a.op), a.writes);
    }
  }

  /** An attempt leaves every directory without a snapshot as it is, and adds the one it strays into. */
  lemma AttemptUnseals(c: Crypto, s: StoreState, a: Attempt)
    requires StoreOK(c, s) && Admissible(c, s, a.op)
    ensures StoreOK(c, After(c, s, a))
    ensures forall key :: Unsealed(After(c, s, a), key) <==> Unsealed(s, key) || LeavesStray(s, a, key)
  {
    OperationSafe(c, s, a.op);
    SafeScriptKeepsStoreOK(c, s, Writes(c, s, a.op), a.writes);
    if a.writes == 0 {
      assert Prefix(Writes(c, s, a.op), 0) == [];
    } else if a.op.Begin? {
      BeginAttemptUnseals(c, s, a);
    } else {
      OtherAttemptUnseals(c, s, a);
    }
  }

  ghost predicate NoneStrays(c: Crypto, s: StoreState, history: seq<Attempt>)
    decreases |history|
  {
    history == [] || (!Strays(s, history[0]) && NoneStrays(c, After(c, s, history[0]), history[1..]))
  }

  // ----- Nothing is collected any more -----

  /** A step that records no execution. */
  predicate Quiet(step: FileStep)
  {
    IsDirStep(step) || step.PutBlob? || step.PutPlan? || step.DamageTrash? || step.DropTrash?
  }

  predicate AllQuiet(steps: seq<FileStep>)
  {
    forall i :: 0 <= i < |steps| ==> Quiet(steps[i])
  }

  lemma {:induction false} QuietPrefix(s: StoreState, steps: seq<FileStep>, n: nat)
    requires AllQuiet(steps)
    ensures ApplyAll(s, Prefix(steps, n)).executions == s.executions
    decreases |steps|
  {
    if steps != [] && n > 0 {
      QuietPrefix(Apply(s, steps[0]), steps[1..], n - 1);
      PrefixRest(steps, n);
    }
  }

  lemma QuietBegin(r: BeginRequest, blobs: seq<FileStep>, steps: seq<FileStep>)
    requires BeginsRun(r, blobs, steps)
    ensures AllQuiet(steps)
  {
    forall i | 0 <= i < |steps| ensures Quiet(steps[i]) {
      if i < 4 + |blobs| { assert steps[i] == (BeginHead(r) + blobs)[i]; }
    }
  }

  lemma BlockedExecute(c: Crypto, s: StoreState, expected: string, now: int, remains: map<RunKey, RunDir>)
    requires !AllSealed(s)
    ensures AllQuiet(ExecuteScript(c, s, expected, now, remains).steps)
    ensures expected !in s.executions ==> ExecuteScript(c, s, expected, now, remains).result.Err?
  {
  }

  lemma OperationQuiet(c: Crypto, s: StoreState, op: Operation)
    requires !AllSealed(s)
    ensures AllQuiet(Writes(c, s, op))
  {
    match op
    case Begin(r) =>
      if r.dataClass in DataClasses {
        var blobs := BeginShape(c, s, r);
        QuietBegin(r, blobs, Writes(c, s, op));
      }
    case Command(key, actions) => ActionsPlain(c, s, key, actions);
    case Recover(key, expected, now, eventTime) =>
      if key in s.active { RecoverPlain(c, s, key, expected, now, eventTime); }
    case Archive(r) => ArchivePlain(c, s, r);
    case Plan(repository, days, asOf) =>
    case Execute(planDigest, now, remains) => BlockedExecute(c, s, planDigest, now, remains);
  }

  /** A directory without a snapshot stays where it is and stays without one; no execution is recorded beside it. */
  lemma {:induction false} UnsealedStays(c: Crypto, s: StoreState, history: seq<Attempt>, key: RunKey)
    requires StoreOK(c, s) && AdmissibleHistory(c, s, history) && Unsealed(s, key)
    ensures var t := Replay(c, s, history); Unsealed(t, key) && t.executions == s.executions
    decreases |history|
  {
    if history != [] {
      AttemptUnseals(c, s, history[0]);
      OperationQuiet(c, s, history[0].op);
      QuietPrefix(s, Writes(c, s, history[0].op), history[0].writes);
      UnsealedStays(c, After(c, s, history[0]), history[1..], key);
    }
  }

  /** Every directory keeps its snapshot exactly when no attempt strays. */
  lemma {:induction false} SealedExactly(c: Crypto, s: StoreState, history: seq<Attempt>)
    requires StoreOK(c, s) && AdmissibleHistory(c, s, history) && AllSealed(s)
    ensures AllSealed(Replay(c, s, history)) <==> NoneStrays(c, s, history)
    decreases |history|
  {
    if history != [] {
      var a := history[0];
      var t := After(c, s, a);
      AttemptUnseals(c, s, a);
      if Strays(s, a) {
        var key := if a.op.Begin? then a.op.begin.key else a.op.key;
        assert LeavesStray(s, a, key);
        UnsealedStays(c, t, history[1..], key);
      } else {
        assert AllSealed(t) by { forall key | key in t.active ensures !Unsealed(t, key) { } }
        SealedExactly(c, t, history[1..]);
      }
    }
  }

  /**
   After any history, planning a collection works, for every repository alike, exactly when no
   attempt has recovered a run that was not there or started one without writing its snapshot.
   */
  lemma PlanningStaysPossible(c: Crypto, history: seq<Attempt>, repository: string, days: int, asOf: int)
    requires AdmissibleHistory(c, EmptyStore, history)
    requires ValidID(repository, "repo-", 32) && days >= 1 && asOf != 0
    ensures PlanScript(c, Replay(c, EmptyStore, history), repository, days, asOf).result.Ok? <==> NoneStrays(c, EmptyStore, history)
  {
    ReplayKeepsStoreOK(c, EmptyStore, history);
    SealedExactly(c, EmptyStore, history);
    PlanningSucceeds(c, Replay(c, EmptyStore, history), repository, days, asOf);
  }

  /** One call of recovery keeps planning possible exactly when the run's directory was there. */
  lemma PlanningAfterRecover(c: Crypto, s: StoreState, key: RunKey, expected: string, now: int, eventTime: int,
                             repository: string, days: int, asOf: int)
    requires StoreOK(c, s) && AllSealed(s) && ValidKey(key)
    requires ValidID(repository, "repo-", 32) && days >= 1 && asOf != 0
    ensures var t := ApplyAll(s, RecoverScript(c, s, key, expected, now, eventTime).steps);
      PlanScript(c, t, repository, days, asOf).result.Ok? <==> key in s.active
  {
    var steps := RecoverScript(c, s, key, expected, now, eventTime).steps;
    var a := Attempt(Recover(key, expected, now, eventTime), |steps| + 1);
    assert Prefix(steps, |steps| + 1) == steps;
    SealedExactly(c, s, [a]);
    assert [a][1..] == [];
    assert NoneStrays(c, s, [a]) <==> !Strays(s, a);
    assert Replay(c, s, [a]) == After(c, s, a);
    AttemptUnseals(c, s, a);
    PlanningSucceeds(c, After(c, s, a), repository, days, asOf);
  }

  /** From then on no repository can plan a collection, and no plan that is not yet recorded is ever executed. */
  lemma StrayBlocksCollection(c: Crypto, s: StoreState, a: Attempt, history: seq<Attempt>)
    requires StoreOK(c, s) && Admissible(c, s, a.op) && Strays(s, a)
    requires AdmissibleHistory(c, After(c, s, a), history)
    ensures var t := Replay(c, After(c, s, a), history);
      && t.executions == After(c, s, a).executions
      && (forall repository, days, asOf :: PlanScript(c, t, repository, days, asOf).result.Err?)
      && forall p, now, remains {:trigger ExecuteScript(c, t, p, now, remains)} ::
           p !in t.executions ==> ExecuteScript(c, t, p, now, remains).result.Err?
  {
    var key := if a.op.Begin? then a.op.begin.key else a.op.key;
    AttemptUnseals(c, s, a);
    assert LeavesStray(s, a, key);
    UnsealedStays(c, After(c, s, a), history, key);
    assert !AllSealed(Replay(c, After(c, s, a), history));
  }
}
