/** What `ready` says about the configured gates. */
module ReadyGates {
  import opened Common
  import opened GateConfig
  import opened GatePlan
  import opened GateContents
  import opened Verification
  import ReadyProofs
  import Planner
  import GateRunner
  import Reporting

  /** The changed paths a gate plan is built for: those whose encoding can be read. */
  function ChangedPaths(decode: string -> Option<string>, entries: seq<Planner.Entry>): seq<string>
  {
    if entries == [] then []
    else
      var path := decode(entries[|entries| - 1].path);
      ChangedPaths(decode, entries[..|entries| - 1]) + if path.Some? then [path.value] else []
  }

  lemma {:induction false} PathsAreDecoded(decode: string -> Option<string>, entries: seq<Planner.Entry>, path: string)
    ensures path in ChangedPaths(decode, entries) <==> exists e :: e in entries && decode(e.path) == Some(path)
  {
    if entries != [] {
      var n := |entries| - 1;
      PathsAreDecoded(decode, entries[..n], path);
      assert entries == entries[..n] + [entries[n]];
    }
  }

  /** The gate plan of this configuration for the changed entries, expanded. */
  ghost predicate PlansGates(c: Case, decode: string -> Option<string>, gates: seq<Gate>, selected: map<string, Gate>, ordered: seq<Gate>)
  {
    && IsOrdering(gates, ChangedPaths(decode, c.entries), selected, Ok(ordered))
    && GateRunner.AllExpanded(ordered, c.expectedGates.gates)
  }

  /** The current gate plan has a gate of this name, with matching evidence that it passed. */
  ghost predicate PassedByName(c: Case, id: string)
  {
    exists i :: 0 <= i < |c.expectedGates.gates| && c.expectedGates.gates[i].id == id
                && ReadyProofs.GatePassed(c, c.expectedGates.gates[i])
  }

  lemma ExpandedPasses(c: Case, ordered: seq<Gate>, k: nat)
    requires Reporting.Ready(InputOf(c)) && GateRunner.AllExpanded(ordered, c.expectedGates.gates)
    requires k < |ordered| && ordered[k].blocking
    ensures PassedByName(c, ordered[k].id)
  {
    assert GateRunner.Expands(ordered[k], c.expectedGates.gates[k]);
    ReadyProofs.BlockingGatesPassed(c);
  }

  /**
   For a validated configuration `ready` means that every blocking gate that a changed path calls
   for, or that such a gate depends on, however indirectly, has matching pass evidence.
   */
  lemma ReadyPassesConfiguredGates(c: Case, decode: string -> Option<string>, gates: seq<Gate>, selected: map<string, Gate>,
                                   ordered: seq<Gate>, i: nat)
    requires Reporting.Ready(InputOf(c)) && ConfigValid(gates) && PlansGates(c, decode, gates, selected, ordered)
    requires i < |gates| && gates[i].blocking && Needed(gates, ChangedPaths(decode, c.entries), i)
    ensures PassedByName(c, gates[i].id) && GateRunner.Ordered(c.expectedGates.gates)
  {
    var k := NeededGateInPlan(gates, ChangedPaths(decode, c.entries), selected, Ok(ordered), i);
    GateRunner.ExpansionKeepsOrder(ordered, c.expectedGates.gates);
    ExpandedPasses(c, ordered, k);
  }

  // ----- The evidence of a run -----

  /**
   What the evidence of a run without a cache decides when it is all that was recorded for its
   plan and snapshot: a gate's status is what the executor answered; a gate that the run did not
   reach, or that wants a final run and was run otherwise, counts as not run.
   */
  lemma RunDecidesStatus(run: GateRunner.Run, results: seq<GateRunner.Evidence>, executed: seq<nat>, err: Option<GateRunner.RunError>, i: nat)
    requires GateRunner.Outcome(run, results, executed, err) && GateRunner.Ordered(run.plan.gates) && run.cached == map[]
    requires i < |run.plan.gates|
    ensures Statuses(run.plan, run.plan.snapshotID, results)[i].status ==
      if i >= |results| || (run.plan.gates[i].finalAlways && !run.final) then "not_run"
      else if run.world.succeeds(i) then "pass" else "fail"
  {
    var plan, gate := run.plan, run.plan.gates[i];
    GateRunner.EndsForItsReason(run, results, executed, err);
    forall j: nat | j < |results| ensures GateRunner.AnsweredByExecutor(run, executed, j, results[j]) {
      GateRunner.EvidenceIsAnswered(run, results, executed, err, j);
    }
    StatusIsCertified(plan, plan.snapshotID, results, i);
    forall k: nat | Certifies(plan, plan.snapshotID, gate, results, k) ensures k == i && (gate.finalAlways ==> run.final) {
      assert GateRunner.AnsweredByExecutor(run, executed, k, results[k]);
    }
    if i < |results| && (gate.finalAlways ==> run.final) {
      assert GateRunner.AnsweredByExecutor(run, executed, i, results[i]);
      assert Certifies(plan, plan.snapshotID, gate, results, i);
    }
  }

  /** The case is decided on the evidence of this run, made for its plan and snapshot without a cache. */
  ghost predicate DecidedByRun(c: Case, run: GateRunner.Run, results: seq<GateRunner.Evidence>)
  {
    && c.recorded == results && c.expectedGates == run.plan && c.snapshotID == run.plan.snapshotID
    && GateRunner.Ordered(run.plan.gates) && run.cached == map[]
  }

  /** A final run without an error passes every blocking gate; any other run passes none that wants a final one. */
  lemma FinalRunPassesGates(c: Case, run: GateRunner.Run, results: seq<GateRunner.Evidence>, executed: seq<nat>, err: Option<GateRunner.RunError>)
    requires GateRunner.Outcome(run, results, executed, err) && DecidedByRun(c, run, results)
    ensures run.final && err.None? ==> forall g :: g in InputOf(c).gates ==> g.blocking ==> g.status == "pass"
    ensures !run.final && (exists i :: 0 <= i < |run.plan.gates| && run.plan.gates[i].finalAlways && run.plan.gates[i].blocking) ==>
      !Reporting.Ready(InputOf(c))
  {
    GateRunner.EndsForItsReason(run, results, executed, err);
    var statuses := Statuses(c.expectedGates, c.snapshotID, c.recorded);
    forall i: nat | i < |run.plan.gates|
      ensures statuses[i].blocking == run.plan.gates[i].blocking
      ensures run.final && err.None? && run.plan.gates[i].blocking ==> statuses[i].status == "pass"
      ensures !run.final && run.plan.gates[i].finalAlways ==> statuses[i].status == "not_run"
    {
      StatusIsCertified(run.plan, run.plan.snapshotID, results, i);
      RunDecidesStatus(run, results, executed, err, i);
      if err.None? {
        assert GateRunner.TurnDone(run, executed, i);
        GateRunner.EvidenceIsAnswered(run, results, executed, err, i);
      }
    }
    forall i | 0 <= i < |statuses| ensures statuses[i] in InputOf(c).gates { }
  }
}
