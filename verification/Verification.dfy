/**
 Assembling the evidence for a verdict, and what `ready` means end to end: from the changed
 inventory through the plan, the stored results, the finding ledger and the gate evidence.
 */
module Verification {
  import opened Common
  import opened Planner
  import opened PlannerProofs
  import opened Results
  import opened ResultIndex
  import Findings
  import GateRunner
  import Reporting

  /** Everything the command reads, once the snapshot is known to be fresh. */
  datatype Case = Case(
    digest: TaskDigest, snapshotID: string, entries: seq<Entry>, assessment: seq<PathRisk>, contracts: seq<Contract>,
    limits: Limits, storedPlan: Plan, stored: Stored, index: ResultIndex.Index, ledger: Findings.Ledger,
    expectedGates: GateRunner.Plan, storedGates: Option<GateRunner.Plan>, recorded: seq<GateRunner.Evidence>, now: int)

  datatype VerifyError = PlanIntegrity | BadIndex | GatePlanStale

  // ----- Gate evidence -----

  /** Of several items for one gate the last counts. */
  function LastByGate(recorded: seq<GateRunner.Evidence>): map<string, GateRunner.Evidence>
  {
    if recorded == [] then map[]
    else LastByGate(recorded[..|recorded| - 1])[recorded[|recorded| - 1].gateID := recorded[|recorded| - 1]]
  }

  /** The item was recorded for exactly this gate of this plan, in a final run where one is required. */
  predicate Binds(plan: GateRunner.Plan, snapshotID: string, gate: GateRunner.Expanded, item: GateRunner.Evidence)
  {
    && item.gateID == gate.id && item.snapshotID == snapshotID && item.planDigest == plan.planDigest
    && item.definitionDigest == gate.definitionDigest && (gate.finalAlways ==> item.finalRun)
  }

  function StatusOf(plan: GateRunner.Plan, snapshotID: string, byID: map<string, GateRunner.Evidence>, gate: GateRunner.Expanded)
    : Reporting.GateStatus
  {
    if gate.id in byID && Binds(plan, snapshotID, gate, byID[gate.id])
    then Reporting.GateStatus(gate.id, gate.blocking, byID[gate.id].status, byID[gate.id].definitionDigest)
    else Reporting.GateStatus(gate.id, gate.blocking, "not_run", "")
  }

  function Statuses(plan: GateRunner.Plan, snapshotID: string, recorded: seq<GateRunner.Evidence>): seq<Reporting.GateStatus>
  {
    seq(|plan.gates|, i requires 0 <= i < |plan.gates| => StatusOf(plan, snapshotID, LastByGate(recorded), plan.gates[i]))
  }

  method GateStatuses(plan: GateRunner.Plan, snapshotID: string, recorded: seq<GateRunner.Evidence>)
    returns (statuses: seq<Reporting.GateStatus>)
    ensures statuses == Statuses(plan, snapshotID, recorded)
  {
    var byID := map[];
    for i := 0 to |recorded|
      invariant byID == LastByGate(recorded[..i])
    {
      assert recorded[..i + 1][..i] == recorded[..i];
      byID := byID[recorded[i].gateID := recorded[i]];
    }
    assert recorded[..|recorded|] == recorded;
    statuses := [];
    for i := 0 to |plan.gates|
      invariant |statuses| == i
      invariant forall k :: 0 <= k < i ==> statuses[k] == StatusOf(plan, snapshotID, byID, plan.gates[k])
    {
      statuses := statuses + [StatusOf(plan, snapshotID, byID, plan.gates[i])];
    }
  }

  /** The last item recorded under the gate's name, made for this snapshot, plan and definition, in a final run where the gate asks for one. */
  ghost predicate Certifies(plan: GateRunner.Plan, snapshotID: string, gate: GateRunner.Expanded, recorded: seq<GateRunner.Evidence>, k: nat)
  {
    && k < |recorded| && recorded[k].gateID == gate.id && (forall j :: k < j < |recorded| ==> recorded[j].gateID != gate.id)
    && recorded[k].snapshotID == snapshotID && recorded[k].planDigest == plan.planDigest
    && recorded[k].definitionDigest == gate.definitionDigest && (gate.finalAlways ==> recorded[k].finalRun)
  }

  lemma {:induction false} LastByGateIsLast(recorded: seq<GateRunner.Evidence>, id: string) returns (k: nat)
    ensures id in LastByGate(recorded) ==>
      k < |recorded| && recorded[k] == LastByGate(recorded)[id] && recorded[k].gateID == id && forall j :: k < j < |recorded| ==> recorded[j].gateID != id
    ensures id !in LastByGate(recorded) ==> forall j :: 0 <= j < |recorded| ==> recorded[j].gateID != id
  {
    k := 0;
    if recorded != [] {
      var last := |recorded| - 1;
      k := LastByGateIsLast(recorded[..last], id);
      if recorded[last].gateID == id {
        k := last;
      }
    }
  }

  /** A gate's status is that of the item that certifies it, and without one it has not been run. */
  lemma StatusIsCertified(plan: GateRunner.Plan, snapshotID: string, recorded: seq<GateRunner.Evidence>, i: nat)
    requires i < |plan.gates|
    ensures var gate := plan.gates[i];
      var status := Statuses(plan, snapshotID, recorded)[i];
      && status.id == gate.id && status.blocking == gate.blocking
      && (forall k: nat :: Certifies(plan, snapshotID, gate, recorded, k) ==>
            status.status == recorded[k].status && status.digest == gate.definitionDigest)
      && ((forall k: nat :: !Certifies(plan, snapshotID, gate, recorded, k)) ==> status.status == "not_run" && status.digest == "")
  {
    var gate := plan.gates[i];
    var at := LastByGateIsLast(recorded, gate.id);
    forall k: nat | Certifies(plan, snapshotID, gate, recorded, k) ensures k == at { }
    if gate.id in LastByGate(recorded) && Binds(plan, snapshotID, gate, LastByGate(recorded)[gate.id]) {
      assert Certifies(plan, snapshotID, gate, recorded, at);
    }
  }

  // ----- Results -----

  /** Open questions of the recorded results, in index order. */
  function Confirmations(files: map<string, Review>, records: seq<Record>): seq<Confirmation>
  {
    if records == [] then []
    else
      var last := records[|records| - 1];
      Confirmations(files, records[..|records| - 1]) +
      if last.resultPath in files && files[last.resultPath].needsConfirmation.Some? then files[last.resultPath].needsConfirmation.value else []
  }

  function Residuals(files: map<string, Review>, records: seq<Record>): seq<ResidualRisk>
  {
    if records == [] then []
    else
      var last := records[|records| - 1];
      Residuals(files, records[..|records| - 1]) +
      if last.resultPath in files && files[last.resultPath].residualRisks.Some? then files[last.resultPath].residualRisks.value else []
  }

  method CollectQuestions(files: map<string, Review>, records: seq<Record>)
    returns (confirmations: seq<Confirmation>, residuals: seq<ResidualRisk>)
    ensures confirmations == Confirmations(files, records) && residuals == Residuals(files, records)
  {
    confirmations, residuals := [], [];
    for i := 0 to |records|
      invariant confirmations == Confirmations(files, records[..i]) && residuals == Residuals(files, records[..i])
    {
      assert records[..i + 1][..i] == records[..i];
      var path := records[i].resultPath;
      if path in files {
        var r := files[path];
        confirmations := confirmations + if r.needsConfirmation.Some? then r.needsConfirmation.value else [];
        residuals := residuals + if r.residualRisks.Some? then r.residualRisks.value else [];
      }
    }
    assert records[..|records|] == records;
  }

  lemma {:induction false} NoConfirmations(files: map<string, Review>, records: seq<Record>, i: nat)
    requires Confirmations(files, records) == [] && i < |records|
    requires records[i].resultPath in files && files[records[i].resultPath].needsConfirmation.Some?
    ensures files[records[i].resultPath].needsConfirmation.value == []
  {
    var last := |records| - 1;
    assert Confirmations(files, records[..last]) == [] by {
      assert |Confirmations(files, records)| >= |Confirmations(files, records[..last])|;
    }
    if i < last {
      NoConfirmations(files, records[..last], i);
    }
  }

  /** The stored result of a record has this open question. */
  ghost predicate Asked(files: map<string, Review>, records: seq<Record>, q: Confirmation)
  {
    exists i :: 0 <= i < |records| && records[i].resultPath in files && files[records[i].resultPath].needsConfirmation.Some?
                && q in files[records[i].resultPath].needsConfirmation.value
  }

  ghost predicate Remaining(files: map<string, Review>, records: seq<Record>, risk: ResidualRisk)
  {
    exists i :: 0 <= i < |records| && records[i].resultPath in files && files[records[i].resultPath].residualRisks.Some?
                && risk in files[records[i].resultPath].residualRisks.value
  }

  /** The verdict is given every open question and the report every residual risk of the recorded results, and no others. */
  lemma {:induction false} QuestionsCollected(files: map<string, Review>, records: seq<Record>)
    ensures forall q :: q in Confirmations(files, records) <==> Asked(files, records, q)
    ensures forall risk :: risk in Residuals(files, records) <==> Remaining(files, records, risk)
  {
    if records != [] {
      var last := |records| - 1;
      QuestionsCollected(files, records[..last]);
      forall q ensures Asked(files, records, q) <==> Asked(files, records[..last], q) || Asked(files, [records[last]], q) {
        AskedSplit(files, records, q);
      }
      forall risk ensures Remaining(files, records, risk) <==> Remaining(files, records[..last], risk) || Remaining(files, [records[last]], risk) {
        RemainingSplit(files, records, risk);
      }
      forall q ensures Asked(files, [records[last]], q) <==>
        records[last].resultPath in files && files[records[last].resultPath].needsConfirmation.Some?
        && q in files[records[last].resultPath].needsConfirmation.value
      {
        assert [records[last]][0] == records[last];
      }
      forall risk ensures Remaining(files, [records[last]], risk) <==>
        records[last].resultPath in files && files[records[last].resultPath].residualRisks.Some?
        && risk in files[records[last].resultPath].residualRisks.value
      {
        assert [records[last]][0] == records[last];
      }
    }
  }

  lemma AskedSplit(files: map<string, Review>, records: seq<Record>, q: Confirmation)
    requires records != []
    ensures var last := |records| - 1;
      Asked(files, records, q) <==> Asked(files, records[..last], q) || Asked(files, [records[last]], q)
  {
    var last := |records| - 1;
    assert forall i :: 0 <= i < last ==> records[..last][i] == records[i];
    assert [records[last]][0] == records[last];
  }

  lemma RemainingSplit(files: map<string, Review>, records: seq<Record>, risk: ResidualRisk)
    requires records != []
    ensures var last := |records| - 1;
      Remaining(files, records, risk) <==> Remaining(files, records[..last], risk) || Remaining(files, [records[last]], risk)
  {
    var last := |records| - 1;
    assert forall i :: 0 <= i < last ==> records[..last][i] == records[i];
    assert [records[last]][0] == records[last];
  }

  // ----- The command -----

  /** What the verdict is decided on. */
  ghost function InputOf(c: Case): Reporting.Input
  {
    Reporting.Input(
      Complete(Items(c.index), c.storedPlan.tasks), if c.storedPlan.tasks == [] then "not_reviewable" else "reviewable",
      Findings.Records(c.ledger), Confirmations(c.stored.files, Items(c.index)), Residuals(c.stored.files, Items(c.index)),
      Statuses(c.expectedGates, c.snapshotID, c.recorded), [], c.now)
  }

  /** The stored plan is the rebuilt one, every recorded result verifies, and a stored gate plan is current. */
  ghost predicate Verified(c: Case, groups: seq<seq<Entry>>)
  {
    && IsPlan(c.digest, c.snapshotID, c.entries, IndexOf(c.assessment, c.contracts), Effective(c.limits), groups, c.storedPlan)
    && IndexVerified(c.stored, TaskByID(c.storedPlan.tasks), c.index)
    && (c.storedGates.Some? ==> c.storedGates.value == c.expectedGates)
  }

  method Assemble(c: Case) returns (input: Reporting.Input)
    ensures input == InputOf(c)
  {
    var confirmations, residuals := CollectQuestions(c.stored.files, Items(c.index));
    var gates := GateStatuses(c.expectedGates, c.snapshotID, c.recorded);
    var complete := ReviewComplete(c.index, c.storedPlan.tasks);
    input := Reporting.Input(
      complete, if c.storedPlan.tasks == [] then "not_reviewable" else "reviewable", Findings.Records(c.ledger),
      confirmations, residuals, gates, [], c.now);
  }

  /** On distinct entries a plan that differs from the rebuilt one is none of theirs. */
  lemma OtherPlanFails(c: Case, again: seq<seq<Entry>>, plan: Plan)
    requires IsPlan(c.digest, c.snapshotID, c.entries, IndexOf(c.assessment, c.contracts), Effective(c.limits), again, plan)
    requires c.storedPlan != plan
    ensures DistinctKeys(c.entries) ==> forall groups ::
      !IsPlan(c.digest, c.snapshotID, c.entries, IndexOf(c.assessment, c.contracts), Effective(c.limits), groups, c.storedPlan)
  {
    if DistinctKeys(c.entries) {
      forall groups
        ensures !IsPlan(c.digest, c.snapshotID, c.entries, IndexOf(c.assessment, c.contracts), Effective(c.limits), groups, c.storedPlan)
      {
        if IsPlan(c.digest, c.snapshotID, c.entries, IndexOf(c.assessment, c.contracts), Effective(c.limits), groups, c.storedPlan) {
          StoredPlanVerifies(c, groups, again, plan);
        }
      }
    }
  }

  method Verify(c: Case) returns (r: Result<Reporting.Report, VerifyError>)
    ensures r.Ok? ==> exists groups :: Verified(c, groups)
    ensures r.Ok? ==>
      && (exists groups :: IsPlan(c.digest, c.snapshotID, c.entries, IndexOf(c.assessment, c.contracts), Effective(c.limits), groups, c.storedPlan))
      && IndexVerified(c.stored, TaskByID(c.storedPlan.tasks), c.index) && (c.storedGates.None? || c.storedGates == Some(c.expectedGates))
    ensures r.Ok? ==>
      && multiset(r.value.findings) == multiset(Findings.Records(c.ledger))
      && multiset(r.value.gates) == multiset(Statuses(c.expectedGates, c.snapshotID, c.recorded))
      && r.value.verdict == Reporting.Verdict(InputOf(c), r.value.findings, r.value.gates)
    ensures r.Ok? ==> (r.value.verdict == "ready" <==> Reporting.Ready(InputOf(c)))
    ensures r == Err(PlanIntegrity) && DistinctKeys(c.entries) ==> forall groups ::
      !IsPlan(c.digest, c.snapshotID, c.entries, IndexOf(c.assessment, c.contracts), Effective(c.limits), groups, c.storedPlan)
    ensures r == Err(BadIndex) ==> !IndexVerified(c.stored, TaskByID(c.storedPlan.tasks), c.index)
    ensures r == Err(GatePlanStale) ==> c.storedGates.Some? && c.storedGates.value != c.expectedGates
  {
    var plan := Planner.Build(c.digest, c.snapshotID, c.entries, c.assessment, c.contracts, c.limits);
    ghost var groups :| IsPlan(c.digest, c.snapshotID, c.entries, IndexOf(c.assessment, c.contracts), Effective(c.limits), groups, plan);
    if c.storedPlan != plan {
      OtherPlanFails(c, groups, plan);
      return Err(PlanIntegrity);
    }
    var ok := VerifyIndex(c.stored, plan.tasks, c.index);
    if !ok {
      return Err(BadIndex);
    }
    if c.storedGates.Some? && c.storedGates.value != c.expectedGates {
      return Err(GatePlanStale);
    }
    assert Verified(c, groups);
    var input := Assemble(c);
    var report := Reporting.Build(input);
    return Ok(report);
  }

  /** On the entries a plan was made from, verification never blames the plan. */
  lemma StoredPlanVerifies(c: Case, groups: seq<seq<Entry>>, again: seq<seq<Entry>>, plan: Plan)
    requires DistinctKeys(c.entries)
    requires IsPlan(c.digest, c.snapshotID, c.entries, IndexOf(c.assessment, c.contracts), Effective(c.limits), groups, c.storedPlan)
    requires IsPlan(c.digest, c.snapshotID, c.entries, IndexOf(c.assessment, c.contracts), Effective(c.limits), again, plan)
    ensures plan == c.storedPlan
  {
    PlanIgnoresInputOrder(c.digest, c.snapshotID, c.entries, c.entries, IndexOf(c.assessment, c.contracts), Effective(c.limits),
                          groups, again, c.storedPlan, plan);
  }
}
