/**
 Running a plan: freshness guards, the cache, early exits, and what the returned evidence
 says about what was executed.

 The executor, the digest of the executable on disk and the freshness guards may answer in
 any way; each is asked at most once for a gate, so their answers are functions of its index.
 */
module GateRunner {
  import opened Common
  import opened Ordering
  import GateConfig
  import GatePlan

  datatype Expanded = Expanded(
    id: string, executable: string, executableDigest: string, definitionDigest: string, dependsOn: seq<string>,
    cacheClass: string, blocking: bool, finalAlways: bool)

  datatype Plan = Plan(snapshotID: string, planDigest: string, binaryDigest: string, gates: seq<Expanded>)

  datatype Evidence = Evidence(
    gateID: string, snapshotID: string, planDigest: string, definitionDigest: string, status: string,
    cacheHit: bool, finalRun: bool, recordedAt: int)

  /** The outside world during one run. */
  datatype World = World(
    authorized: bool, equipped: bool, freshBefore: bool,
    sameExecutable: nat -> bool, succeeds: nat -> bool, freshAfter: nat -> bool)

  datatype RunError =
    | Unauthorized | NotEquipped | StaleBefore
    | ExecutableChanged(at: nat) | DependencyNotPassed(at: nat) | StaleAfter(at: nat) | BlockingFailed(at: nat)

  /** Everything one run depends on. */
  datatype Run = Run(plan: Plan, world: World, cached: map<string, Evidence>, final: bool, now: int)
  {
    function Key(i: nat): string
      requires i < |plan.gates|
    {
      plan.snapshotID + "\0" + plan.gates[i].definitionDigest + "\0" + plan.binaryDigest + "\0" + plan.gates[i].executableDigest
    }

    /** The cache may answer for a gate. */
    predicate Served(i: nat)
      requires i < |plan.gates|
    {
      && Key(i) in cached && plan.gates[i].cacheClass == "worktree_deterministic"
      && !(final && plan.gates[i].finalAlways) && cached[Key(i)].status == "pass"
    }

    /** The evidence a gate leaves when it is reached. */
    function Entry(i: nat): Evidence
      requires i < |plan.gates|
    {
      if Served(i) then cached[Key(i)].(cacheHit := true, recordedAt := now)
      else Evidence(plan.gates[i].id, plan.snapshotID, plan.planDigest, plan.gates[i].definitionDigest,
                    if world.succeeds(i) then "pass" else "fail", false, final, now)
    }

    /** Identifiers whose latest gate among the first `n` passed. */
    function Passed(n: nat): set<string>
      requires n <= |plan.gates|
    {
      if n == 0 then {}
      else if Entry(n - 1).status == "pass" then Passed(n - 1) + {plan.gates[n - 1].id}
      else Passed(n - 1) - {plan.gates[n - 1].id}
    }

    /** Why the run ends at a gate, if it does. */
    function Stop(i: nat): Option<RunError>
      requires i < |plan.gates|
    {
      var gate := plan.gates[i];
      if gate.executable != "" && !world.sameExecutable(i) then Some(ExecutableChanged(i))
      else if exists d :: d in gate.dependsOn && d !in Passed(i) then Some(DependencyNotPassed(i))
      else if Served(i) then None
      else if !world.freshAfter(i) then Some(StaleAfter(i))
      else if !world.succeeds(i) && gate.blocking then Some(BlockingFailed(i))
      else None
    }

    /** The gates the executor is asked to run among the first `n`, in order. */
    function Executed(n: nat): seq<nat>
      requires n <= |plan.gates|
    {
      if n == 0 then [] else Executed(n - 1) + if Served(n - 1) then [] else [n - 1]
    }
  }

  function Entries(run: Run, n: nat): (r: seq<Evidence>)
    requires n <= |run.plan.gates|
    ensures |r| == n
  {
    seq(n, i requires 0 <= i < n => run.Entry(i))
  }

  /** A gate that stops the run leaves evidence when it was executed. */
  predicate LeavesEvidence(e: RunError)
  {
    e.StaleAfter? || e.BlockingFailed?
  }

  /** The whole outcome of a run: it ends at the first gate that stops it. */
  ghost predicate Outcome(run: Run, results: seq<Evidence>, executed: seq<nat>, err: Option<RunError>)
  {
    if !run.world.authorized then err == Some(Unauthorized) && results == [] && executed == []
    else if !run.world.equipped then err == Some(NotEquipped) && results == [] && executed == []
    else if !run.world.freshBefore then err == Some(StaleBefore) && results == [] && executed == []
    else exists n, m :: Ends(run, n, m, err) && results == Entries(run, m) && executed == run.Executed(m)
  }

  /** The run ends at gate `n`, the first that stops it, or after the last; `m` gates have left evidence. */
  ghost predicate Ends(run: Run, n: nat, m: nat, err: Option<RunError>)
  {
    && n <= m <= |run.plan.gates|
    && (forall i :: 0 <= i < n ==> run.Stop(i).None?)
    && (n == |run.plan.gates| ==> err.None?)
    && (n < |run.plan.gates| ==> err.Some? && err == run.Stop(n) && m == if LeavesEvidence(err.value) then n + 1 else n)
  }

  method DependenciesPassed(run: Run, i: nat, passed: set<string>) returns (ok: bool)
    requires i < |run.plan.gates| && passed == run.Passed(i)
    ensures ok <==> forall d :: d in run.plan.gates[i].dependsOn ==> d in run.Passed(i)
  {
    var deps := run.plan.gates[i].dependsOn;
    for k := 0 to |deps|
      invariant forall j :: 0 <= j < k ==> deps[j] in passed
    {
      if deps[k] !in passed {
        return false;
      }
    }
    return true;
  }

  /** One turn of the loop: the evidence it appends, what was executed, and who has passed now. */
  method RunGate(run: Run, i: nat, before: set<string>)
    returns (evidence: seq<Evidence>, ran: seq<nat>, passed: set<string>, err: Option<RunError>)
    requires i < |run.plan.gates| && before == run.Passed(i)
    ensures err == run.Stop(i)
    ensures evidence == if err.None? || LeavesEvidence(err.value) then [run.Entry(i)] else []
    ensures ran == if evidence != [] && !run.Served(i) then [i] else []
    ensures err.None? ==> passed == run.Passed(i + 1)
  {
    var gate := run.plan.gates[i];
    evidence, ran, passed := [], [], before;
    if gate.executable != "" && !run.world.sameExecutable(i) {
      return evidence, ran, passed, Some(ExecutableChanged(i));
    }
    var ready := DependenciesPassed(run, i, passed);
    if !ready {
      return evidence, ran, passed, Some(DependencyNotPassed(i));
    }
    if run.Served(i) {
      evidence := [run.cached[run.Key(i)].(cacheHit := true, recordedAt := run.now)];
      return evidence, ran, passed + {gate.id}, None;
    }
    var success := run.world.succeeds(i);
    ran := [i];
    evidence := [Evidence(gate.id, run.plan.snapshotID, run.plan.planDigest, gate.definitionDigest,
                          if success then "pass" else "fail", false, run.final, run.now)];
    if !run.world.freshAfter(i) {
      return evidence, ran, passed, Some(StaleAfter(i));
    }
    if !success && gate.blocking {
      return evidence, ran, passed, Some(BlockingFailed(i));
    }
    return evidence, ran, if success then passed + {gate.id} else passed - {gate.id}, None;
  }

  /** The loop; it ends at gate `n` with `m` entries. */
  method RunGates(run: Run) returns (results: seq<Evidence>, executed: seq<nat>, err: Option<RunError>, ghost n: nat, ghost m: nat)
    ensures Ends(run, n, m, err) && results == Entries(run, m) && executed == run.Executed(m)
  {
    results, executed, n, m := [], [], 0, 0;
    var passed: set<string> := {};
    for i := 0 to |run.plan.gates|
      invariant n == m == i
      invariant results == Entries(run, i) && executed == run.Executed(i)
      invariant passed == run.Passed(i)
      invariant forall k :: 0 <= k < i ==> run.Stop(k).None?
    {
      var evidence, ran;
      evidence, ran, passed, err := RunGate(run, i, passed);
      results, executed := results + evidence, executed + ran;
      assert Entries(run, i + 1) == Entries(run, i) + [run.Entry(i)];
      m := if evidence == [] then i else i + 1;
      if err.Some? {
        return;
      }
      n := i + 1;
    }
    err := None;
  }

  method Execute(run: Run) returns (results: seq<Evidence>, executed: seq<nat>, err: Option<RunError>)
    ensures Outcome(run, results, executed, err)
  {
    results, executed := [], [];
    if !run.world.authorized {
      return results, executed, Some(Unauthorized);
    }
    if !run.world.equipped {
      return results, executed, Some(NotEquipped);
    }
    if !run.world.freshBefore {
      return results, executed, Some(StaleBefore);
    }
    ghost var n, m;
    results, executed, err, n, m := RunGates(run);
  }

  // ----- What any run keeps -----

  /** Identifiers are distinct and every dependency stands earlier. */
  ghost predicate Ordered(gates: seq<Expanded>)
  {
    && (forall i, j :: 0 <= i < j < |gates| ==> gates[i].id != gates[j].id)
    && forall i, d :: 0 <= i < |gates| && d in gates[i].dependsOn ==> exists j :: 0 <= j < i && gates[j].id == d
  }

  /** Expanding resolves executables; it keeps what the configuration declares and sorts the dependencies. */
  ghost predicate Expands(gate: GateConfig.Gate, expanded: Expanded)
  {
    && expanded.id == gate.id && expanded.dependsOn == SortedStrings(gate.dependsOn) && expanded.cacheClass == gate.cacheClass
    && expanded.blocking == gate.blocking && expanded.finalAlways == gate.finalAlways
  }

  ghost predicate AllExpanded(gates: seq<GateConfig.Gate>, expanded: seq<Expanded>)
  {
    |expanded| == |gates| && forall i :: 0 <= i < |gates| ==> Expands(gates[i], expanded[i])
  }

  /** Expanding the ordered gates of a plan keeps their order. */
  lemma ExpansionKeepsOrder(gates: seq<GateConfig.Gate>, expanded: seq<Expanded>)
    requires GatePlan.PlanOrder(gates) && AllExpanded(gates, expanded)
    ensures Ordered(expanded)
  {
    forall i, d | 0 <= i < |expanded| && d in expanded[i].dependsOn ensures exists j :: 0 <= j < i && expanded[j].id == d {
      assert Expands(gates[i], expanded[i]);
      SortedStringsElements(gates[i].dependsOn);
      var j :| 0 <= j < i && gates[j].id == d;
      assert Expands(gates[j], expanded[j]);
      assert expanded[j].id == d;
    }
  }

  lemma {:induction false} PassedHasEntry(run: Run, n: nat, id: string) returns (j: nat)
    requires n <= |run.plan.gates| && id in run.Passed(n)
    ensures j < n && run.plan.gates[j].id == id && run.Entry(j).status == "pass"
  {
    if run.Entry(n - 1).status == "pass" && run.plan.gates[n - 1].id == id {
      j := n - 1;
    } else {
      j := PassedHasEntry(run, n - 1, id);
    }
  }

  /** A gate with evidence stood only on gates that had passed. */
  lemma EntriesStandOnPassed(run: Run, results: seq<Evidence>, executed: seq<nat>, err: Option<RunError>, i: nat)
    requires Outcome(run, results, executed, err) && i < |results|
    ensures |results| <= |run.plan.gates| && results[i] == run.Entry(i)
    ensures forall d :: d in run.plan.gates[i].dependsOn ==> d in run.Passed(i)
  {
    var n, m :| Ends(run, n, m, err) && results == Entries(run, m) && executed == run.Executed(m);
    var stop := run.Stop(i);
    assert i <= n;
  }

  /** The key under which the cache keeps evidence: snapshot, definition, program and executable. */
  ghost predicate AnsweredByCache(run: Run, i: nat, entry: Evidence)
    requires i < |run.plan.gates|
  {
    var gate := run.plan.gates[i];
    var key := run.plan.snapshotID + "\0" + gate.definitionDigest + "\0" + run.plan.binaryDigest + "\0" + gate.executableDigest;
    && key in run.cached && run.cached[key].status == "pass"
    && gate.cacheClass == "worktree_deterministic" && !(run.final && gate.finalAlways)
    && entry == run.cached[key].(cacheHit := true, recordedAt := run.now)
  }

  /** The executor was asked in this run, and the entry says what it answered, of this gate, plan and snapshot. */
  ghost predicate AnsweredByExecutor(run: Run, executed: seq<nat>, i: nat, entry: Evidence)
    requires i < |run.plan.gates|
  {
    && i in executed
    && entry.status == (if run.world.succeeds(i) then "pass" else "fail")
    && entry.gateID == run.plan.gates[i].id && entry.definitionDigest == run.plan.gates[i].definitionDigest
    && entry.snapshotID == run.plan.snapshotID && entry.planDigest == run.plan.planDigest
    && !entry.cacheHit && entry.finalRun == run.final && entry.recordedAt == run.now
  }

  /** Every entry is either the answer of the executor in this run or a passing item of the cache, never both. */
  lemma EvidenceIsAnswered(run: Run, results: seq<Evidence>, executed: seq<nat>, err: Option<RunError>, i: nat)
    requires Outcome(run, results, executed, err) && i < |results|
    ensures |results| <= |run.plan.gates|
    ensures i in executed ==> AnsweredByExecutor(run, executed, i, results[i])
    ensures i !in executed ==> AnsweredByCache(run, i, results[i])
    ensures AnsweredByCache(run, i, results[i]) ==> i !in executed
  {
    EntriesStandOnPassed(run, results, executed, err, i);
    NothingRunsAfterFailure(run, results, executed, err);
  }

  /** The last gate of this name before `i`, if any, did not pass. */
  ghost predicate NotPassedBefore(run: Run, results: seq<Evidence>, i: nat, d: string)
    requires i <= |results| <= |run.plan.gates|
  {
    forall j :: 0 <= j < i && run.plan.gates[j].id == d && (forall k :: j < k < i ==> run.plan.gates[k].id != d) ==> results[j].status != "pass"
  }

  /** Whether a name has passed is decided by the latest gate that has it. */
  lemma NotPassedStep(run: Run, results: seq<Evidence>, n: nat, d: string)
    requires 0 < n <= |results| <= |run.plan.gates|
    ensures NotPassedBefore(run, results, n, d) <==>
      if run.plan.gates[n - 1].id == d then results[n - 1].status != "pass" else NotPassedBefore(run, results, n - 1, d)
  {
    if run.plan.gates[n - 1].id != d && NotPassedBefore(run, results, n, d) {
      forall j | 0 <= j < n - 1 && run.plan.gates[j].id == d && (forall k :: j < k < n - 1 ==> run.plan.gates[k].id != d)
        ensures results[j].status != "pass"
      {
        assert forall k :: j < k < n ==> run.plan.gates[k].id != d;
      }
    }
  }

  lemma {:induction false} PassedExactly(run: Run, results: seq<Evidence>, n: nat, d: string)
    requires n <= |results| <= |run.plan.gates| && forall j :: 0 <= j < n ==> results[j] == run.Entry(j)
    ensures d !in run.Passed(n) <==> NotPassedBefore(run, results, n, d)
  {
    if n > 0 {
      PassedExactly(run, results, n - 1, d);
      NotPassedStep(run, results, n, d);
    }
  }

  /** What an error says of the gate it names. */
  ghost predicate ErrorSays(run: Run, results: seq<Evidence>, executed: seq<nat>, e: RunError)
    requires |results| <= |run.plan.gates|
  {
    match e
    case Unauthorized => !run.world.authorized && results == []
    case NotEquipped => !run.world.equipped && results == []
    case StaleBefore => !run.world.freshBefore && results == []
    case ExecutableChanged(i) =>
      i == |results| < |run.plan.gates| && run.plan.gates[i].executable != "" && !run.world.sameExecutable(i)
    case DependencyNotPassed(i) =>
      i == |results| < |run.plan.gates| && exists d :: d in run.plan.gates[i].dependsOn && NotPassedBefore(run, results, i, d)
    case StaleAfter(i) => i + 1 == |results| && i in executed && !run.world.freshAfter(i)
    case BlockingFailed(i) => i + 1 == |results| && i in executed && run.plan.gates[i].blocking && !run.world.succeeds(i)
  }

  /** A turn that went through: the executable is as planned, and an executed gate left the snapshot fresh and failed only if not blocking. */
  ghost predicate TurnDone(run: Run, executed: seq<nat>, i: nat)
    requires i < |run.plan.gates|
  {
    && (run.plan.gates[i].executable != "" ==> run.world.sameExecutable(i))
    && (i in executed ==> run.world.freshAfter(i) && (run.plan.gates[i].blocking ==> run.world.succeeds(i)))
  }

  /**
   A run ends for the reason its error gives, in front of the gate it names or behind it; every turn
   before it was done, and without an error every gate of the plan had its turn.
   */
  lemma EndsForItsReason(run: Run, results: seq<Evidence>, executed: seq<nat>, err: Option<RunError>)
    requires Outcome(run, results, executed, err)
    ensures |results| <= |run.plan.gates|
    ensures err.None? ==> run.world.authorized && run.world.equipped && run.world.freshBefore && |results| == |run.plan.gates|
    ensures err.Some? ==> ErrorSays(run, results, executed, err.value)
    ensures forall i: nat :: i < |results| && !(err.Some? && LeavesEvidence(err.value) && i + 1 == |results|) ==> TurnDone(run, executed, i)
  {
    NothingRunsAfterFailure(run, results, executed, err);
    if run.world.authorized && run.world.equipped && run.world.freshBefore {
      var n: nat, m: nat :| Ends(run, n, m, err) && results == Entries(run, m) && executed == run.Executed(m);
      ExecutedMembers(run, m);
      forall i: nat | i < n ensures TurnDone(run, executed, i) { assert run.Stop(i).None?; }
      if err.Some? && err.value.DependencyNotPassed? {
        var d :| d in run.plan.gates[n].dependsOn && d !in run.Passed(n);
        PassedExactly(run, results, n, d);
      }
    }
  }

  /** Each gate of the walk depends on the next. */
  ghost predicate DependencyPath(gates: seq<Expanded>, walk: seq<nat>)
  {
    && walk != [] && (forall k :: 0 <= k < |walk| ==> walk[k] < |gates|)
    && forall k :: 0 <= k < |walk| - 1 ==> gates[walk[k + 1]].id in gates[walk[k]].dependsOn
  }

  /** The gate passed in this run: the executor succeeded at it, or the cache answered with an item that had passed. */
  ghost predicate PassedInRun(run: Run, executed: seq<nat>, i: nat, entry: Evidence)
    requires i < |run.plan.gates|
  {
    (i in executed && run.world.succeeds(i)) || AnsweredByCache(run, i, entry)
  }

  /**
   A gate leaves evidence, and in particular is executed, only when every gate it depends on,
   however indirectly, has passed in this run, by the executor's answer or the cache's.
   */
  lemma {:induction false} DependenciesPassFirst(run: Run, results: seq<Evidence>, executed: seq<nat>, err: Option<RunError>, walk: seq<nat>)
    requires Outcome(run, results, executed, err) && Ordered(run.plan.gates)
    requires DependencyPath(run.plan.gates, walk) && walk[0] < |results|
    ensures forall k :: 1 <= k < |walk| ==>
      walk[k] < walk[0] && results[walk[k]].status == "pass" && PassedInRun(run, executed, walk[k], results[walk[k]])
    decreases |walk|
  {
    if |walk| > 1 {
      var gates := run.plan.gates;
      EntriesStandOnPassed(run, results, executed, err, walk[0]);
      var j := PassedHasEntry(run, walk[0], gates[walk[1]].id);
      assert j == walk[1];
      EntriesStandOnPassed(run, results, executed, err, j);
      EvidenceIsAnswered(run, results, executed, err, j);
      DependenciesPassFirst(run, results, executed, err, walk[1..]);
      forall k | 1 <= k < |walk|
        ensures walk[k] < walk[0] && results[walk[k]].status == "pass" && PassedInRun(run, executed, walk[k], results[walk[k]])
      {
        if k > 1 { assert walk[1..][k - 1] == walk[k]; }
      }
    }
  }

  lemma {:induction false} ExecutedMembers(run: Run, n: nat)
    requires n <= |run.plan.gates|
    ensures forall i: nat :: i in run.Executed(n) <==> i < n && !run.Served(i)
    ensures forall a, b :: 0 <= a < b < |run.Executed(n)| ==> run.Executed(n)[a] < run.Executed(n)[b]
  {
    if n > 0 {
      ExecutedMembers(run, n - 1);
      var before := run.Executed(n - 1);
      forall a | 0 <= a < |before| ensures before[a] < n - 1 { assert before[a] in before; }
    }
  }

  /**
   What is executed: the gates with evidence that the cache did not serve, in plan order, each
   once; and after a gate that made the snapshot stale, or failed while blocking, nothing.
   */
  lemma NothingRunsAfterFailure(run: Run, results: seq<Evidence>, executed: seq<nat>, err: Option<RunError>)
    requires Outcome(run, results, executed, err)
    ensures |results| <= |run.plan.gates|
    ensures forall i: nat :: i in executed <==> i < |results| && !run.Served(i)
    ensures forall a, b :: 0 <= a < b < |executed| ==> executed[a] < executed[b]
    ensures forall i: nat :: i in executed && i + 1 < |results| ==>
      run.world.freshAfter(i) && (run.world.succeeds(i) || !run.plan.gates[i].blocking)
  {
    if run.world.authorized && run.world.equipped && run.world.freshBefore {
      var n, m :| Ends(run, n, m, err) && results == Entries(run, m) && executed == run.Executed(m);
      ExecutedMembers(run, m);
      forall i: nat | i in executed && i + 1 < |results|
        ensures run.world.freshAfter(i) && (run.world.succeeds(i) || !run.plan.gates[i].blocking)
      {
        assert i < n && run.Stop(i).None?;
      }
    }
  }

  /** A final run never serves a final_always gate from the cache: its evidence is of an execution in this run. */
  lemma FinalGatesAreExecuted(run: Run, results: seq<Evidence>, executed: seq<nat>, err: Option<RunError>, i: nat)
    requires Outcome(run, results, executed, err) && i < |results| && run.final && i < |run.plan.gates| && run.plan.gates[i].finalAlways
    ensures i in executed && !results[i].cacheHit && results[i].finalRun
  {
    NothingRunsAfterFailure(run, results, executed, err);
    EntriesStandOnPassed(run, results, executed, err, i);
  }

  /** What the cache serves under a gate's key was recorded for that gate. */
  ghost predicate CacheCoherent(run: Run)
  {
    forall i :: 0 <= i < |run.plan.gates| && run.Key(i) in run.cached ==> run.cached[run.Key(i)].gateID == run.plan.gates[i].id
  }

  /**
   A run ends without error exactly when it was authorized and fresh and no gate stopped it;
   then there is one entry for each gate in plan order and every blocking gate passed.
   */
  lemma SuccessMeansAllBlockingPassed(run: Run, results: seq<Evidence>, executed: seq<nat>, err: Option<RunError>)
    requires Outcome(run, results, executed, err)
    ensures err.None? <==>
      run.world.authorized && run.world.equipped && run.world.freshBefore &&
      forall i :: 0 <= i < |run.plan.gates| ==> run.Stop(i).None?
    ensures err.None? ==> |results| == |run.plan.gates|
    ensures err.None? ==> forall i :: 0 <= i < |results| && run.plan.gates[i].blocking ==> results[i].status == "pass"
    ensures err.None? && CacheCoherent(run) ==> forall i :: 0 <= i < |results| ==> results[i].gateID == run.plan.gates[i].id
  {
    if run.world.authorized && run.world.equipped && run.world.freshBefore {
      var n, m :| Ends(run, n, m, err) && results == Entries(run, m) && executed == run.Executed(m);
      if err.None? {
        forall i | 0 <= i < |results| ensures run.plan.gates[i].blocking ==> results[i].status == "pass" {
          assert run.Stop(i).None?;
        }
      }
    }
  }
}
