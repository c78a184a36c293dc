/** What a recorded batch leaves, member by member: the records of its passes and the findings it reported. */
module RecordingContents {
  import opened Common
  import opened Ordering
  import opened Sequences
  import opened Results
  import opened ResultIndex
  import opened Findings
  import opened Recording

  /** The record says of the pass what its result says, where the result is stored and when it was recorded. */
  predicate RecordsPass(naming: Naming, record: Record, item: Item, now: int)
  {
    && record.taskID == item.review.taskID && record.passID == item.review.reviewer.passID
    && record.perspective == item.review.reviewer.perspective && record.provider == item.review.reviewer.provider
    && record.model == item.review.reviewer.model && record.modelFamily == item.review.reviewer.modelFamily
    && record.promptDigest == item.review.reviewer.promptDigest
    && record.contextIsolation == item.review.reviewer.contextIsolation
    && record.resultPath == item.path && record.resultDigest == naming.digest(item.review)
    && record.completed == item.completed && record.recordedAt == now
  }

  /** The ledger takes the finding over in the state in which the provider reported it, with its task, snapshot and reviewer. */
  predicate TakesOver(naming: Naming, record: FindingRecord, review: Review, f: Finding, now: int)
  {
    && record.id == naming.ledgerID(review, f.id) && record.finding == f && record.state == f.state
    && record.taskID == review.taskID && record.snapshotID == review.snapshotID && record.reviewer == review.reviewer
    && record.stateOperator == "provider:" + review.reviewer.provider && record.updatedAt == now
    && record.reason == "" && record.owner == "" && record.expiresAt.None? && record.reviewTrigger == ""
  }

  /** The index before, if it has a version. */
  function Before(index: ResultIndex.Index): seq<Record>
  {
    if index.schemaVersion != "" && index.records.Some? then index.records.value else []
  }

  function LedgerBefore(ledger: Ledger): seq<FindingRecord>
  {
    if ledger.schemaVersion != "" && ledger.findings.Some? then ledger.findings.value else []
  }

  ghost predicate NewPass(naming: Naming, items: seq<Item>, now: int, record: Record)
  {
    exists item :: item in items && RecordsPass(naming, record, item, now)
  }

  ghost predicate NewlyReported(naming: Naming, items: seq<Item>, now: int, record: FindingRecord)
  {
    exists item, f :: item in items && item.review.findings.Some? && f in item.review.findings.value && TakesOver(naming, record, item.review, f, now)
  }

  lemma {:induction false} FlatMapMembers<T, U>(f: T -> seq<U>, xs: seq<T>, y: U)
    ensures y in FlatMap(f, xs) <==> exists x :: x in xs && y in f(x)
  {
    if xs != [] {
      var last := |xs| - 1;
      FlatMapMembers(f, xs[..last], y);
      assert forall x :: x in xs <==> x in xs[..last] || x == xs[last];
    }
  }

  lemma {:induction false} FlatMapSize<T, U>(f: T -> seq<U>, size: T -> nat, xs: seq<T>)
    requires forall x :: x in xs ==> |f(x)| == size(x)
    ensures |FlatMap(f, xs)| == Total(size, xs)
  {
    if xs != [] {
      FlatMapSize(f, size, xs[..|xs| - 1]);
    }
  }

  function Total<T>(size: T -> nat, xs: seq<T>): nat
  {
    if xs == [] then 0 else Total(size, xs[..|xs| - 1]) + size(xs[|xs| - 1])
  }

  lemma BatchRecordsAre(naming: Naming, items: seq<Item>, now: int, record: Record)
    ensures record in BatchRecords(naming, items, now) <==> NewPass(naming, items, now, record)
  {
    var records := BatchRecords(naming, items, now);
    if NewPass(naming, items, now, record) {
      var item :| item in items && RecordsPass(naming, record, item, now);
      var i :| 0 <= i < |items| && items[i] == item;
      assert records[i] == record;
    }
    if record in records {
      var i :| 0 <= i < |records| && records[i] == record;
      assert items[i] in items && RecordsPass(naming, record, items[i], now);
    }
  }

  lemma NewFindingsAre(naming: Naming, review: Review, now: int, record: FindingRecord)
    ensures record in NewFindings(naming, review, now) <==>
      review.findings.Some? && exists f :: f in review.findings.value && TakesOver(naming, record, review, f, now)
  {
    var records, findings := NewFindings(naming, review, now), FindingsOf(review);
    if f :| f in findings && TakesOver(naming, record, review, f, now) {
      var i :| 0 <= i < |findings| && findings[i] == f;
      assert records[i] == record;
    }
    if record in records {
      var i :| 0 <= i < |records| && records[i] == record;
      assert findings[i] in findings && TakesOver(naming, record, review, findings[i], now);
    }
  }

  lemma BatchFindingsAre(naming: Naming, items: seq<Item>, now: int, record: FindingRecord)
    ensures record in BatchFindings(naming, items, now) <==> NewlyReported(naming, items, now, record)
  {
    FlatMapMembers(Importer(naming, now), items, record);
    forall item: Item ensures record in Importer(naming, now)(item) <==>
      item.review.findings.Some? && exists f :: f in item.review.findings.value && TakesOver(naming, record, item.review, f, now)
    {
      NewFindingsAre(naming, item.review, now, record);
    }
  }

  lemma SumMembers<T>(after: seq<T>, before: seq<T>, added: seq<T>)
    requires multiset(after) == multiset(before + added)
    ensures forall x :: x in after <==> x in before || x in added
    ensures |after| == |before| + |added|
  {
    MembersPermutation(after, before + added);
    SameLength(after, before + added);
  }

  /** By task, and for one task by pass. */
  ghost predicate PassesInOrder(records: seq<Record>)
  {
    forall i, j :: 0 <= i < j < |records| ==>
      if records[i].taskID == records[j].taskID then StringLE(records[i].passID, records[j].passID)
      else StringLE(records[i].taskID, records[j].taskID)
  }

  ghost predicate FindingsInOrder(records: seq<FindingRecord>)
  {
    forall i, j :: 0 <= i < j < |records| ==> StringLE(records[i].id, records[j].id)
  }

  /** The index has what it had and one record for each pass, and nothing else, in order. */
  ghost predicate IndexGrows(naming: Naming, index: ResultIndex.Index, items: seq<Item>, now: int, after: ResultIndex.Index)
  {
    && after.schemaVersion == "1.0" && after.records.Some? && |after.records.value| == |Before(index)| + |items|
    && PassesInOrder(after.records.value)
    && forall record :: record in after.records.value <==> record in Before(index) || NewPass(naming, items, now, record)
  }

  /** The ledger has what it had and each reported finding, in the state in which it was reported, and nothing else, in order. */
  ghost predicate LedgerGrows(naming: Naming, ledger: Ledger, items: seq<Item>, now: int, after: Ledger)
  {
    && after.schemaVersion == "1.0" && after.findings.Some? && FindingsInOrder(after.findings.value)
    && |after.findings.value| == |LedgerBefore(ledger)| + Total((item: Item) => |FindingsOf(item.review)|, items)
    && forall record :: record in after.findings.value <==> record in LedgerBefore(ledger) || NewlyReported(naming, items, now, record)
  }

  lemma IndexLeft(naming: Naming, index: ResultIndex.Index, items: seq<Item>, now: int, after: ResultIndex.Index)
    requires after.schemaVersion == "1.0" && after.records.Some? && SortedBy(PassLE, Items(after))
    requires multiset(Items(after)) == multiset(Base(index) + BatchRecords(naming, items, now))
    ensures IndexGrows(naming, index, items, now, after)
  {
    SumMembers(after.records.value, Before(index), BatchRecords(naming, items, now));
    forall record ensures record in BatchRecords(naming, items, now) <==> NewPass(naming, items, now, record) {
      BatchRecordsAre(naming, items, now, record);
    }
  }

  lemma LedgerLeft(naming: Naming, ledger: Ledger, items: seq<Item>, now: int, after: Ledger)
    requires after.schemaVersion == "1.0" && after.findings.Some? && SortedBy(RecordLE, Records(after))
    requires multiset(Records(after)) == multiset(BaseFindings(ledger) + BatchFindings(naming, items, now))
    ensures LedgerGrows(naming, ledger, items, now, after)
  {
    SumMembers(after.findings.value, LedgerBefore(ledger), BatchFindings(naming, items, now));
    forall record ensures record in BatchFindings(naming, items, now) <==> NewlyReported(naming, items, now, record) {
      BatchFindingsAre(naming, items, now, record);
    }
    FlatMapSize(Importer(naming, now), (item: Item) => |FindingsOf(item.review)|, items);
  }

  /** What recording a batch leaves in the index and in the ledger. */
  lemma BatchLeaves(naming: Naming, index: ResultIndex.Index, ledger: Ledger, items: seq<Item>, now: int,
                    after: ResultIndex.Index, ledgerAfter: Ledger)
    requires items != [] && Recorded(naming, index, ledger, items, now, after, ledgerAfter)
    ensures IndexGrows(naming, index, items, now, after) && LedgerGrows(naming, ledger, items, now, ledgerAfter)
  {
    IndexLeft(naming, index, items, now, after);
    LedgerLeft(naming, ledger, items, now, ledgerAfter);
  }

  // ----- Which batches are accepted -----

  /** No two passes of the batch and no pass of it and one already recorded have the same task and pass identifier. */
  ghost predicate NoPassTwice(index: ResultIndex.Index, items: seq<Item>)
  {
    && (forall i, j :: 0 <= i < j < |items| ==>
          items[i].review.taskID != items[j].review.taskID || items[i].review.reviewer.passID != items[j].review.reviewer.passID)
    && forall record, item :: record in Before(index) && item in items ==>
         record.taskID != item.review.taskID || record.passID != item.review.reviewer.passID
  }

  /** The names of the batch's findings, in order. */
  function Names(naming: Naming, items: seq<Item>): seq<string>
  {
    if items == [] then []
    else
      var review := items[|items| - 1].review;
      Names(naming, items[..|items| - 1]) + seq(|FindingsOf(review)|, k requires 0 <= k < |FindingsOf(review)| => naming.ledgerID(review, FindingsOf(review)[k].id))
  }

  ghost predicate NoNameTwice(naming: Naming, ledger: Ledger, items: seq<Item>)
  {
    && Distinct(Names(naming, items))
    && forall record :: record in LedgerBefore(ledger) ==> record.id !in Names(naming, items)
  }

  /** Every finding is in a state in which a provider may report one. */
  ghost predicate OnlyReported(items: seq<Item>)
  {
    forall item, f :: item in items && f in FindingsOf(item.review) ==> f.state in ["reported", "needs_confirmation"]
  }

  /** Versions that can be added to. */
  predicate KnownVersions(index: ResultIndex.Index, ledger: Ledger)
  {
    && index.schemaVersion in ["", "1.0"]
    && (ledger.schemaVersion == "" || (ledger.schemaVersion == "1.0" && ledger.findings.Some?))
  }

  lemma {:induction false} NamesAreIDs(naming: Naming, items: seq<Item>, now: int)
    ensures IDsOf(BatchFindings(naming, items, now)) == Names(naming, items)
  {
    if items != [] {
      var init, item := items[..|items| - 1], items[|items| - 1];
      NamesAreIDs(naming, init, now);
      MapConcat(IDOf, BatchFindings(naming, init, now), NewFindings(naming, item.review, now));
      assert BatchFindings(naming, items, now) == BatchFindings(naming, init, now) + NewFindings(naming, item.review, now);
    }
  }

  lemma PassesFitExactly(index: ResultIndex.Index, items: seq<Item>)
    ensures PassesFit(Base(index), items) <==> NoPassTwice(index, items)
  {
    var base, taken, passes := Before(index), Map(Pass, Before(index)), Map(ItemPass, items);
    if NoPassTwice(index, items) {
      forall x | x in taken ensures x !in passes {
        var k :| 0 <= k < |base| && taken[k] == x;
        assert base[k] in base;
        forall i | 0 <= i < |items| ensures passes[i] != x { assert items[i] in items; }
      }
    }
    if PassesFit(Base(index), items) {
      forall record, item | record in base && item in items
        ensures record.taskID != item.review.taskID || record.passID != item.review.reviewer.passID
      {
        var k :| 0 <= k < |base| && base[k] == record;
        var i :| 0 <= i < |items| && items[i] == item;
        assert taken[k] in taken && passes[i] in passes;
      }
    }
  }

  lemma FindingsFitExactly(naming: Naming, ledger: Ledger, items: seq<Item>, now: int)
    ensures FindingsFit(naming, BaseFindings(ledger), items, now) <==> NoNameTwice(naming, ledger, items)
  {
    NamesAreIDs(naming, items, now);
    var base, taken := LedgerBefore(ledger), IDsOf(LedgerBefore(ledger));
    if FindingsFit(naming, BaseFindings(ledger), items, now) {
      forall record | record in base ensures record.id !in Names(naming, items) {
        var k :| 0 <= k < |base| && base[k] == record;
        assert taken[k] in taken;
      }
    }
    if NoNameTwice(naming, ledger, items) {
      forall id | id in taken ensures id !in Names(naming, items) {
        var k :| 0 <= k < |base| && taken[k] == id;
        assert base[k] in base;
      }
    }
  }

  /** A batch is accepted exactly when it repeats no pass and no finding's name and reports its findings in a state that providers may use. */
  lemma AcceptedExactly(naming: Naming, index: ResultIndex.Index, ledger: Ledger, items: seq<Item>, now: int)
    ensures Acceptable(naming, index, ledger, items, now) <==>
      && (items != [] ==> KnownVersions(index, ledger))
      && NoPassTwice(index, items) && NoNameTwice(naming, ledger, items) && OnlyReported(items)
  {
    PassesFitExactly(index, items);
    FindingsFitExactly(naming, ledger, items, now);
  }
}
