/** The report and its verdict. */
module Reporting {
  import opened Common
  import opened Ordering
  import opened Results
  import opened Findings

  datatype GateStatus = GateStatus(id: string, blocking: bool, status: string, digest: string)

  datatype Input = Input(
    reviewComplete: bool, reviewability: string, findings: seq<FindingRecord>, needsConfirmation: seq<Confirmation>,
    residualRisks: seq<ResidualRisk>, gates: seq<GateStatus>, evidenceLimitations: seq<string>, now: int)

  datatype Report = Report(
    verdict: string, findings: seq<FindingRecord>, needsConfirmation: seq<Confirmation>,
    residualRisks: seq<ResidualRisk>, gates: seq<GateStatus>, evidenceLimitations: seq<string>)

  predicate GateLE(a: GateStatus, b: GateStatus)
  {
    StringLE(a.id, b.id)
  }

  lemma GateOrder()
    ensures TotalPreorder(GateLE)
  {
    StringOrder();
  }

  // ----- The verdict -----

  /** An accepted risk counts until it expires. */
  predicate RiskLapsed(f: FindingRecord, now: int)
  {
    f.state == "accepted_risk" && (f.expiresAt.None? || now >= f.expiresAt.value)
  }

  predicate Severe(f: FindingRecord)
  {
    f.finding.severity == "critical" || f.finding.severity == "high"
  }

  /** What one finding decides, if anything. */
  function Judge(f: FindingRecord, now: int): Option<string>
  {
    if f.state == "needs_confirmation" || RiskLapsed(f, now) then Some("needs_confirmation")
    else if Severe(f) && f.state != "rejected" && f.state != "verified_closed" && f.state != "accepted_risk" then Some("not_ready")
    else None
  }

  /** The first finding that decides. */
  function JudgeAll(findings: seq<FindingRecord>, now: int): Option<string>
  {
    if findings == [] then None
    else if Judge(findings[0], now).Some? then Judge(findings[0], now)
    else JudgeAll(findings[1..], now)
  }

  function Verdict(input: Input, findings: seq<FindingRecord>, gates: seq<GateStatus>): string
  {
    if input.reviewability != "reviewable" || !input.reviewComplete || input.evidenceLimitations != [] then "not_reviewable"
    else if input.needsConfirmation != [] then "needs_confirmation"
    else if JudgeAll(findings, input.now).Some? then JudgeAll(findings, input.now).value
    else if exists g :: g in gates && g.blocking && g.status != "pass" then "not_ready"
    else "ready"
  }

  /** Sorts copies of the findings and the gates, then decides. */
  method Build(input: Input) returns (report: Report)
    ensures forall i, j :: 0 <= i < j < |report.findings| ==> StringLE(report.findings[i].id, report.findings[j].id)
    ensures forall i, j :: 0 <= i < j < |report.gates| ==> StringLE(report.gates[i].id, report.gates[j].id)
    ensures multiset(report.findings) == multiset(input.findings) && multiset(report.gates) == multiset(input.gates)
    ensures report.needsConfirmation == input.needsConfirmation && report.residualRisks == input.residualRisks
    ensures report.evidenceLimitations == SortedStrings(input.evidenceLimitations)
    ensures report.verdict == Verdict(input, report.findings, report.gates)
    ensures report.verdict == "ready" <==> Ready(input)
  {
    RecordOrder();
    GateOrder();
    var findings := SortSlice(RecordLE, input.findings);
    var gates := SortSlice(GateLE, input.gates);
    ReadyExactly(input, findings, gates);
    report := Report(Verdict(input, findings, gates), findings, input.needsConfirmation, input.residualRisks, gates,
                     SortedStrings(input.evidenceLimitations));
  }

  // ----- What ready means -----

  /** A finding that stands in the way of nothing. */
  predicate Settled(f: FindingRecord, now: int)
  {
    && f.state != "needs_confirmation"
    && (f.state == "accepted_risk" ==> f.expiresAt.Some? && now < f.expiresAt.value)
    && (f.finding.severity in ["critical", "high"] ==> f.state in ["rejected", "verified_closed", "accepted_risk"])
  }

  ghost predicate Ready(input: Input)
  {
    && input.reviewability == "reviewable" && input.reviewComplete && input.evidenceLimitations == []
    && input.needsConfirmation == []
    && (forall f :: f in input.findings ==> Settled(f, input.now))
    && (forall g :: g in input.gates ==> g.blocking ==> g.status == "pass")
  }

  lemma {:induction false} NothingDecides(findings: seq<FindingRecord>, now: int)
    ensures JudgeAll(findings, now).None? <==> forall f :: f in findings ==> Settled(f, now)
    ensures JudgeAll(findings, now).Some? ==> JudgeAll(findings, now).value != "ready"
  {
    if findings != [] {
      assert Judge(findings[0], now).None? <==> Settled(findings[0], now);
      NothingDecides(findings[1..], now);
      assert findings == [findings[0]] + findings[1..];
    }
  }

  lemma ReadyExactly(input: Input, findings: seq<FindingRecord>, gates: seq<GateStatus>)
    requires multiset(findings) == multiset(input.findings) && multiset(gates) == multiset(input.gates)
    ensures Verdict(input, findings, gates) == "ready" <==> Ready(input)
  {
    NothingDecides(findings, input.now);
    forall f ensures f in findings <==> f in input.findings { assert f in findings <==> f in multiset(findings); }
    forall g ensures g in gates <==> g in input.gates { assert g in gates <==> g in multiset(gates); }
  }

  /** The finding waits for a decision: unconfirmed, or its accepted risk has no expiry or has expired. */
  predicate Undecided(f: FindingRecord, now: int)
  {
    f.state == "needs_confirmation" || (f.state == "accepted_risk" && (f.expiresAt.None? || f.expiresAt.value <= now))
  }

  /** The first finding that is not settled waits for a decision. */
  ghost predicate FirstUndecided(findings: seq<FindingRecord>, now: int)
  {
    exists k :: 0 <= k < |findings| && Undecided(findings[k], now) && forall j :: 0 <= j < k ==> Settled(findings[j], now)
  }

  lemma {:induction false} FirstDecides(findings: seq<FindingRecord>, now: int)
    ensures JudgeAll(findings, now) == Some("needs_confirmation") <==> FirstUndecided(findings, now)
    ensures JudgeAll(findings, now) in [None, Some("needs_confirmation"), Some("not_ready")]
  {
    if findings != [] {
      var f := findings[0];
      assert Judge(f, now) == Some("needs_confirmation") <==> Undecided(f, now);
      assert Judge(f, now).None? <==> Settled(f, now);
      FirstDecides(findings[1..], now);
      if Settled(f, now) {
        if FirstUndecided(findings[1..], now) {
          var k :| 0 <= k < |findings| - 1 && Undecided(findings[1..][k], now) && forall j :: 0 <= j < k ==> Settled(findings[1..][j], now);
          assert Undecided(findings[k + 1], now) && forall j :: 0 <= j < k + 1 ==> Settled(findings[j], now);
        }
        if FirstUndecided(findings, now) {
          var k :| 0 <= k < |findings| && Undecided(findings[k], now) && forall j :: 0 <= j < k ==> Settled(findings[j], now);
          assert Undecided(findings[1..][k - 1], now);
        }
      }
    }
  }

  /** The four verdicts: nothing to review from; an open question or an undecided finding first; otherwise ready or not. */
  lemma VerdictExactly(input: Input, findings: seq<FindingRecord>, gates: seq<GateStatus>)
    ensures var verdict := Verdict(input, findings, gates);
      var reviewable := input.reviewability == "reviewable" && input.reviewComplete && input.evidenceLimitations == [];
      && verdict in ["not_reviewable", "needs_confirmation", "not_ready", "ready"]
      && (verdict == "not_reviewable" <==> !reviewable)
      && (verdict == "needs_confirmation" <==> reviewable && (input.needsConfirmation != [] || FirstUndecided(findings, input.now)))
  {
    FirstDecides(findings, input.now);
  }

  /**
   The verdict is that of the first finding in identifier order that decides. With distinct
   identifiers it therefore does not depend on the order in which findings and gates were given.
   */
  lemma VerdictIgnoresOrder(a: Input, b: Input, findingsA: seq<FindingRecord>, findingsB: seq<FindingRecord>,
                            gatesA: seq<GateStatus>, gatesB: seq<GateStatus>)
    requires b == a.(findings := b.findings, gates := b.gates)
    requires multiset(a.findings) == multiset(b.findings) && multiset(a.gates) == multiset(b.gates)
    requires forall f, g :: f in a.findings && g in a.findings && f.id == g.id ==> f == g
    requires SortedBy(RecordLE, findingsA) && multiset(findingsA) == multiset(a.findings) && multiset(gatesA) == multiset(a.gates)
    requires SortedBy(RecordLE, findingsB) && multiset(findingsB) == multiset(b.findings) && multiset(gatesB) == multiset(b.gates)
    ensures Verdict(a, findingsA, gatesA) == Verdict(b, findingsB, gatesB)
  {
    RecordOrder();
    SortSliceDeterministic(RecordLE, a.findings, findingsA, findingsB);
    forall g ensures g in gatesA <==> g in gatesB {
      assert g in gatesA <==> g in multiset(gatesA);
      assert g in gatesB <==> g in multiset(gatesB);
    }
  }
}
