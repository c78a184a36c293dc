/** The ledger of imported findings. */
module Findings {
  import opened Common
  import opened Ordering
  import opened Results

  datatype FindingRecord = FindingRecord(
    id: string, finding: Finding, taskID: string, snapshotID: string, reviewer: Reviewer, state: string,
    stateOperator: string, reason: string, owner: string, expiresAt: Option<int>, reviewTrigger: string, updatedAt: int)

  /** `findings` is `None` when the JSON form has no array. */
  datatype Ledger = Ledger(schemaVersion: string, findings: Option<seq<FindingRecord>>)

  function Records(ledger: Ledger): seq<FindingRecord>
  {
    if ledger.findings.Some? then ledger.findings.value else []
  }

  predicate RecordLE(a: FindingRecord, b: FindingRecord)
  {
    StringLE(a.id, b.id)
  }

  lemma RecordOrder()
    ensures TotalPreorder(RecordLE)
    ensures forall a, b :: RecordLE(a, b) && RecordLE(b, a) ==> a.id == b.id
  {
    StringOrder();
  }
}
