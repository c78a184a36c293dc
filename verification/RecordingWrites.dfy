/**
 Recording as a script of writes: the result files, then the index, then the finding ledger. A
 process that dies exactly between the last two leaves indexed results without their findings.
 */
module RecordingWrites {
  import opened Common
  import opened Sequences
  import opened Results
  import opened ResultIndex
  import opened Findings
  import opened Recording

  /** The files of a run that recording touches; absent ones are read as empty. */
  datatype Files = Files(results: map<string, Review>, index: Option<ResultIndex.Index>, ledger: Option<Ledger>)

  function IndexIn(s: Files): ResultIndex.Index
  {
    if s.index.Some? then s.index.value else ResultIndex.Index("1.0", Some([]))
  }

  function LedgerIn(s: Files): Ledger
  {
    if s.ledger.Some? then s.ledger.value else Ledger("1.0", Some([]))
  }

  // ----- Writes -----

  datatype Write = PutResult(path: string, review: Review) | PutIndex(index: ResultIndex.Index) | PutLedger(ledger: Ledger)

  function Apply(s: Files, w: Write): Files
  {
    match w
    case PutResult(path, review) => s.(results := s.results[path := review])
    case PutIndex(index) => s.(index := Some(index))
    case PutLedger(ledger) => s.(ledger := Some(ledger))
  }

  function ApplyAll(s: Files, writes: seq<Write>): Files
  {
    if writes == [] then s else Apply(ApplyAll(s, writes[..|writes| - 1]), writes[|writes| - 1])
  }

  function ResultWrite(): Item -> Write
  {
    (item: Item) => PutResult(item.path, item.review)
  }

  /** What recording a batch writes, in order; recording one result is a batch of one. */
  function Writes(items: seq<Item>, index: ResultIndex.Index, ledger: Ledger): (writes: seq<Write>)
    ensures |writes| == |items| + 2
  {
    Map(ResultWrite(), items) + [PutIndex(index), PutLedger(ledger)]
  }

  // ----- What the ledger should hold -----

  /** The finding of a result has its record. */
  ghost predicate Entered(naming: Naming, r: Review, f: Finding, records: seq<FindingRecord>)
  {
    exists l :: l in records && l.id == naming.ledgerID(r, f.id) && l.finding == f
  }

  ghost predicate AllEntered(naming: Naming, r: Review, records: seq<FindingRecord>)
  {
    forall f :: f in FindingsOf(r) ==> Entered(naming, r, f, records)
  }

  /** Every finding of every indexed result has its ledger record. */
  ghost predicate LedgerHolds(naming: Naming, results: map<string, Review>, indexed: seq<Record>, records: seq<FindingRecord>)
  {
    forall record :: record in indexed && record.resultPath in results ==>
      AllEntered(naming, results[record.resultPath], records)
  }

  ghost predicate Holds(naming: Naming, s: Files)
  {
    LedgerHolds(naming, s.results, Items(IndexIn(s)), Records(LedgerIn(s)))
  }

  // ----- A recording -----

  /** New result files have new names. */
  ghost predicate NewPaths(indexed: seq<Record>, items: seq<Item>)
  {
    && (forall i, j :: 0 <= i < j < |items| ==> items[i].path != items[j].path)
    && forall record, item :: record in indexed && item in items ==> record.resultPath != item.path
  }

  /**
   The batch was accepted against the files read, and these are the new index and ledger. The index
   has passed its check, and the program writes no other version of the ledger.
   */
  ghost predicate Accepts(naming: Naming, s: Files, items: seq<Item>, now: int, index: ResultIndex.Index, ledger: Ledger)
  {
    && items != [] && IndexIn(s).schemaVersion == "1.0" && LedgerIn(s).schemaVersion == "1.0"
    && NewPaths(Items(IndexIn(s)), items)
    && Acceptable(naming, IndexIn(s), LedgerIn(s), items, now)
    && Recorded(naming, IndexIn(s), LedgerIn(s), items, now, index, ledger)
  }

  ghost predicate HasFindings(items: seq<Item>)
  {
    exists item :: item in items && FindingsOf(item.review) != []
  }

  // ----- The files after some of the writes -----

  /** The result files after those of the items. */
  function StoreAll(results: map<string, Review>, items: seq<Item>): map<string, Review>
  {
    if items == [] then results
    else
      var last := items[|items| - 1];
      StoreAll(results, items[..|items| - 1])[last.path := last.review]
  }

  lemma {:induction false} ResultWrites(s: Files, items: seq<Item>)
    ensures ApplyAll(s, Map(ResultWrite(), items)) == s.(results := StoreAll(s.results, items))
  {
    if items != [] {
      var last := |items| - 1;
      ResultWrites(s, items[..last]);
      assert Map(ResultWrite(), items)[..last] == Map(ResultWrite(), items[..last]);
    }
  }

  lemma {:induction false} StoreAllKeeps(results: map<string, Review>, items: seq<Item>, path: string)
    requires forall item :: item in items ==> item.path != path
    ensures path in StoreAll(results, items) <==> path in results
    ensures path in results ==> StoreAll(results, items)[path] == results[path]
  {
    if items != [] {
      StoreAllKeeps(results, items[..|items| - 1], path);
    }
  }

  lemma {:induction false} StoreAllHolds(results: map<string, Review>, items: seq<Item>, k: nat)
    requires k < |items| && forall i, j :: 0 <= i < j < |items| ==> items[i].path != items[j].path
    ensures items[k].path in StoreAll(results, items) && StoreAll(results, items)[items[k].path] == items[k].review
  {
    var last := |items| - 1;
    if k < last {
      StoreAllHolds(results, items[..last], k);
    }
  }

  /** The files after the first `n` writes. */
  function After(s: Files, items: seq<Item>, index: ResultIndex.Index, ledger: Ledger, n: nat): Files
    requires n <= |items| + 2
  {
    ApplyAll(s, Writes(items, index, ledger)[..n])
  }

  lemma AfterResults(s: Files, items: seq<Item>, index: ResultIndex.Index, ledger: Ledger, n: nat)
    requires n <= |items|
    ensures After(s, items, index, ledger, n) == s.(results := StoreAll(s.results, items[..n]))
  {
    ResultWrites(s, items[..n]);
    assert Writes(items, index, ledger)[..n] == Map(ResultWrite(), items[..n]);
  }

  lemma OneMore(s: Files, writes: seq<Write>, n: nat)
    requires n < |writes|
    ensures ApplyAll(s, writes[..n + 1]) == Apply(ApplyAll(s, writes[..n]), writes[n])
  {
    assert writes[..n + 1][..n] == writes[..n];
  }

  lemma AfterIndex(s: Files, items: seq<Item>, index: ResultIndex.Index, ledger: Ledger)
    ensures After(s, items, index, ledger, |items| + 1) == Files(StoreAll(s.results, items), Some(index), s.ledger)
  {
    AfterResults(s, items, index, ledger, |items|);
    assert items[..|items|] == items;
    OneMore(s, Writes(items, index, ledger), |items|);
  }

  lemma AfterLedger(s: Files, items: seq<Item>, index: ResultIndex.Index, ledger: Ledger)
    ensures After(s, items, index, ledger, |items| + 2) == Files(StoreAll(s.results, items), Some(index), Some(ledger))
  {
    AfterIndex(s, items, index, ledger);
    OneMore(s, Writes(items, index, ledger), |items| + 1);
  }

  // ----- Does the ledger hold -----

  /** Writing result files changes nothing for the results that are indexed. */
  lemma HoldsAfterResults(naming: Naming, s: Files, items: seq<Item>)
    requires forall record, item :: record in Items(IndexIn(s)) && item in items ==> record.resultPath != item.path
    ensures Holds(naming, s.(results := StoreAll(s.results, items))) <==> Holds(naming, s)
  {
    forall record | record in Items(IndexIn(s))
      ensures record.resultPath in StoreAll(s.results, items) <==> record.resultPath in s.results
      ensures record.resultPath in s.results ==> StoreAll(s.results, items)[record.resultPath] == s.results[record.resultPath]
    {
      StoreAllKeeps(s.results, items, record.resultPath);
    }
  }

  /** The new index holds the old records and one for each item. */
  lemma IndexedAfter(naming: Naming, s: Files, items: seq<Item>, now: int, index: ResultIndex.Index, ledger: Ledger)
    requires Accepts(naming, s, items, now, index, ledger)
    ensures forall record :: record in Items(index) <==>
      record in Items(IndexIn(s)) || exists item :: item in items && record == NewRecord(naming, item, now)
  {
    MembersPermutation(Items(index), Items(IndexIn(s)) + BatchRecords(naming, items, now));
    forall record ensures record in BatchRecords(naming, items, now) <==> exists item :: item in items && record == NewRecord(naming, item, now) {
      BatchMember(naming, items, now, record);
    }
  }

  lemma BatchMember(naming: Naming, items: seq<Item>, now: int, record: Record)
    ensures record in BatchRecords(naming, items, now) <==> exists item :: item in items && record == NewRecord(naming, item, now)
  {
    var added := BatchRecords(naming, items, now);
    if record in added {
      var k :| 0 <= k < |added| && added[k] == record;
      assert items[k] in items && record == NewRecord(naming, items[k], now);
    }
    if item :| item in items && record == NewRecord(naming, item, now) {
      var k :| 0 <= k < |items| && items[k] == item;
      assert added[k] == record;
    }
  }

  lemma {:induction false} FindingsOfBatch(naming: Naming, items: seq<Item>, now: int, item: Item, f: Finding)
    requires item in items && f in FindingsOf(item.review)
    ensures NewFinding(naming, item.review, f, now) in BatchFindings(naming, items, now)
  {
    var last := |items| - 1;
    var here := NewFindings(naming, items[last].review, now);
    if items[last] == item {
      var k :| 0 <= k < |FindingsOf(item.review)| && FindingsOf(item.review)[k] == f;
      assert here[k] == NewFinding(naming, item.review, f, now);
    } else {
      assert item in items[..last];
      FindingsOfBatch(naming, items[..last], now, item, f);
    }
  }

  /** Before the ledger is written no finding of the batch has a record. */
  lemma NotEnteredYet(naming: Naming, s: Files, items: seq<Item>, now: int, index: ResultIndex.Index, ledger: Ledger, item: Item, f: Finding)
    requires Accepts(naming, s, items, now, index, ledger) && item in items && f in FindingsOf(item.review)
    ensures !Entered(naming, item.review, f, Records(LedgerIn(s)))
  {
    var before, added := Records(LedgerIn(s)), BatchFindings(naming, items, now);
    var entry := NewFinding(naming, item.review, f, now);
    FindingsOfBatch(naming, items, now, item, f);
    var k :| 0 <= k < |added| && added[k] == entry;
    assert IDsOf(added)[k] == entry.id;
    forall l | l in before ensures l.id != entry.id {
      var j :| 0 <= j < |before| && before[j] == l;
      assert IDsOf(before)[j] == l.id && IDsOf(before)[j] in IDsOf(before);
    }
  }

  lemma EnteredAfter(naming: Naming, s: Files, items: seq<Item>, now: int, index: ResultIndex.Index, ledger: Ledger, r: Review, f: Finding)
    requires Accepts(naming, s, items, now, index, ledger)
    requires Entered(naming, r, f, Records(LedgerIn(s))) || exists item :: item in items && item.review == r && f in FindingsOf(r)
    ensures Entered(naming, r, f, Records(ledger))
  {
    var before, added := Records(LedgerIn(s)), BatchFindings(naming, items, now);
    MembersPermutation(Records(ledger), before + added);
    if Entered(naming, r, f, before) {
      var l :| l in before && l.id == naming.ledgerID(r, f.id) && l.finding == f;
      assert l in before + added;
    } else {
      var item :| item in items && item.review == r && f in FindingsOf(r);
      FindingsOfBatch(naming, items, now, item, f);
      assert NewFinding(naming, r, f, now) in before + added;
    }
  }

  /** What the indexed results are once the index is written. */
  lemma IndexedResults(naming: Naming, s: Files, items: seq<Item>, now: int, index: ResultIndex.Index, ledger: Ledger, record: Record)
    requires Accepts(naming, s, items, now, index, ledger) && record in Items(index)
    ensures var stored := StoreAll(s.results, items);
      || (record in Items(IndexIn(s)) && (record.resultPath in stored <==> record.resultPath in s.results)
          && (record.resultPath in stored ==> stored[record.resultPath] == s.results[record.resultPath]))
      || (record.resultPath in stored && exists item :: item in items && stored[record.resultPath] == item.review)
  {
    IndexedAfter(naming, s, items, now, index, ledger);
    if record in Items(IndexIn(s)) {
      StoreAllKeeps(s.results, items, record.resultPath);
    } else {
      var item :| item in items && record == NewRecord(naming, item, now);
      var k :| 0 <= k < |items| && items[k] == item;
      StoreAllHolds(s.results, items, k);
    }
  }

  lemma HoldsAfterLedger(naming: Naming, s: Files, items: seq<Item>, now: int, index: ResultIndex.Index, ledger: Ledger)
    requires Accepts(naming, s, items, now, index, ledger) && Holds(naming, s)
    ensures Holds(naming, Files(StoreAll(s.results, items), Some(index), Some(ledger)))
  {
    var stored := StoreAll(s.results, items);
    forall record, f | record in Items(index) && record.resultPath in stored && f in FindingsOf(stored[record.resultPath])
      ensures Entered(naming, stored[record.resultPath], f, Records(ledger))
    {
      IndexedResults(naming, s, items, now, index, ledger, record);
      EnteredAfter(naming, s, items, now, index, ledger, stored[record.resultPath], f);
    }
  }

  /** Between the index and the ledger. */
  lemma HoldsAfterIndex(naming: Naming, s: Files, items: seq<Item>, now: int, index: ResultIndex.Index, ledger: Ledger)
    requires Accepts(naming, s, items, now, index, ledger) && Holds(naming, s)
    ensures Holds(naming, Files(StoreAll(s.results, items), Some(index), s.ledger)) <==> !HasFindings(items)
  {
    var stored, t := StoreAll(s.results, items), Files(StoreAll(s.results, items), Some(index), s.ledger);
    if HasFindings(items) {
      var item :| item in items && FindingsOf(item.review) != [];
      var f := FindingsOf(item.review)[0];
      var k :| 0 <= k < |items| && items[k] == item;
      StoreAllHolds(s.results, items, k);
      IndexedAfter(naming, s, items, now, index, ledger);
      assert NewRecord(naming, item, now) in Items(index);
      NotEnteredYet(naming, s, items, now, index, ledger, item, f);
    } else {
      forall record, f | record in Items(index) && record.resultPath in stored && f in FindingsOf(stored[record.resultPath])
        ensures Entered(naming, stored[record.resultPath], f, Records(LedgerIn(s)))
      {
        IndexedResults(naming, s, items, now, index, ledger, record);
      }
    }
  }

  /**
   From files whose ledger holds, a recording that stops after any number of its writes leaves a
   ledger that holds, exactly unless it stops between the index and the ledger with findings to enter.
   */
  lemma CrashedRecordingHolds(naming: Naming, s: Files, items: seq<Item>, now: int, index: ResultIndex.Index, ledger: Ledger, n: nat)
    requires Accepts(naming, s, items, now, index, ledger) && Holds(naming, s) && n <= |items| + 2
    ensures Holds(naming, After(s, items, index, ledger, n)) <==> !(n == |items| + 1 && HasFindings(items))
  {
    if n <= |items| {
      AfterResults(s, items, index, ledger, n);
      HoldsAfterResults(naming, s, items[..n]);
    } else if n == |items| + 1 {
      AfterIndex(s, items, index, ledger);
      HoldsAfterIndex(naming, s, items, now, index, ledger);
    } else {
      AfterLedger(s, items, index, ledger);
      HoldsAfterLedger(naming, s, items, now, index, ledger);
    }
  }

  /** And then none of its results can be recorded again: each pass is taken, whatever the ledger. */
  lemma CrashedRecordingIsFinal(naming: Naming, s: Files, items: seq<Item>, now: int, index: ResultIndex.Index, ledger: Ledger,
                                item: Item, again: Ledger, later: int)
    requires Accepts(naming, s, items, now, index, ledger) && item in items
    ensures !Recording.Fits(naming, IndexIn(After(s, items, index, ledger, |items| + 1)), again, item, later)
  {
    AfterIndex(s, items, index, ledger);
    IndexedAfter(naming, s, items, now, index, ledger);
    var records := Items(index);
    assert NewRecord(naming, item, now) in records;
    var k :| 0 <= k < |records| && records[k] == NewRecord(naming, item, now);
    assert Map(Pass, records)[k] == ItemPass(item);
    assert Map(Pass, records)[k] in Map(Pass, records);
  }

  // ----- Any number of recordings -----

  /** One recording and how many of its writes happened before the process stopped. */
  datatype Attempt = Attempt(items: seq<Item>, now: int, index: ResultIndex.Index, ledger: Ledger, writes: nat)

  function AfterAttempt(s: Files, a: Attempt): Files
  {
    After(s, a.items, a.index, a.ledger, if a.writes <= |a.items| + 2 then a.writes else |a.items| + 2)
  }

  function Replay(s: Files, history: seq<Attempt>): Files
    decreases |history|
  {
    if history == [] then s else Replay(AfterAttempt(s, history[0]), history[1..])
  }

  ghost predicate StopsBetween(a: Attempt)
  {
    a.writes == |a.items| + 1 && HasFindings(a.items)
  }

  /** Every recording is accepted where it starts, and none with findings stops between its last two writes. */
  ghost predicate CarefulHistory(naming: Naming, s: Files, history: seq<Attempt>)
    decreases |history|
  {
    history == [] ||
    (var a := history[0];
     && Accepts(naming, s, a.items, a.now, a.index, a.ledger) && !StopsBetween(a)
     && CarefulHistory(naming, AfterAttempt(s, a), history[1..]))
  }

  lemma AttemptHolds(naming: Naming, s: Files, a: Attempt)
    requires Accepts(naming, s, a.items, a.now, a.index, a.ledger) && !StopsBetween(a) && Holds(naming, s)
    ensures Holds(naming, AfterAttempt(s, a))
  {
    var n := if a.writes <= |a.items| + 2 then a.writes else |a.items| + 2;
    CrashedRecordingHolds(naming, s, a.items, a.now, a.index, a.ledger, n);
  }

  /** The ledger holds after any number of such recordings. */
  lemma {:induction false} RecordingsHold(naming: Naming, s: Files, history: seq<Attempt>)
    requires CarefulHistory(naming, s, history) && Holds(naming, s)
    ensures Holds(naming, Replay(s, history))
    decreases |history|
  {
    if history != [] {
      AttemptHolds(naming, s, history[0]);
      RecordingsHold(naming, AfterAttempt(s, history[0]), history[1..]);
    }
  }
}
