/** Recording review results: appending to the index, importing findings, and whole batches. */
module Recording {
  import opened Common
  import opened Ordering
  import opened Sequences
  import opened Results
  import opened ResultIndex
  import opened Findings

  /** One validated result to record. */
  datatype Item = Item(review: Review, completed: bool, path: string)

  /** The result digest, and the digest that names a finding of a result. */
  datatype Naming = Naming(digest: Review -> string, ledgerID: (Review, string) -> string)

  datatype RecordError = BadIndexSchema | DuplicatePass | BadLedger | BadFindingState | DuplicateFinding

  // ----- The index -----

  function NewRecord(naming: Naming, item: Item, now: int): Record
  {
    var r := item.review;
    Record(r.taskID, r.reviewer.passID, r.reviewer.perspective, r.reviewer.provider, r.reviewer.model, r.reviewer.modelFamily,
           r.reviewer.promptDigest, r.reviewer.contextIsolation, item.path, naming.digest(r), item.completed, now)
  }

  function Pass(record: Record): (string, string)
  {
    (record.taskID, record.passID)
  }

  function ItemPass(item: Item): (string, string)
  {
    (item.review.taskID, item.review.reviewer.passID)
  }

  /** By task, then by pass. */
  predicate PassLE(a: Record, b: Record)
  {
    if a.taskID != b.taskID then StringLE(a.taskID, b.taskID) else StringLE(a.passID, b.passID)
  }

  lemma PassOrder()
    ensures TotalPreorder(PassLE)
    ensures forall a, b :: PassLE(a, b) && PassLE(b, a) ==> Pass(a) == Pass(b)
  {
    StringOrder();
  }

  /** An index without a version is started afresh. */
  function Base(index: ResultIndex.Index): seq<Record>
  {
    if index.schemaVersion == "" then [] else Items(index)
  }

  predicate UsableIndex(index: ResultIndex.Index)
  {
    index.schemaVersion == "" || index.schemaVersion == "1.0"
  }

  method Append(naming: Naming, index: ResultIndex.Index, item: Item, now: int) returns (r: Result<ResultIndex.Index, RecordError>)
    ensures r.Ok? <==> UsableIndex(index) && Fresh(Map(Pass, Base(index)), [ItemPass(item)])
    ensures r.Ok? ==>
      && r.value.schemaVersion == "1.0" && r.value.records.Some?
      && SortedBy(PassLE, r.value.records.value)
      && multiset(r.value.records.value) == multiset(Base(index) + [NewRecord(naming, item, now)])
  {
    if !UsableIndex(index) {
      return Err(BadIndexSchema);
    }
    var records := Base(index);
    ghost var taken := Map(Pass, records);
    for i := 0 to |records|
      invariant forall k :: 0 <= k < i ==> taken[k] != ItemPass(item)
    {
      if records[i].taskID == item.review.taskID && records[i].passID == item.review.reviewer.passID {
        assert taken[i] in taken && taken[i] == ItemPass(item);
        return Err(DuplicatePass);
      }
    }
    PassOrder();
    var sorted := SortSlice(PassLE, records + [NewRecord(naming, item, now)]);
    return Ok(ResultIndex.Index("1.0", Some(sorted)));
  }

  // ----- The ledger -----

  function NewFinding(naming: Naming, review: Review, f: Finding, now: int): FindingRecord
  {
    FindingRecord(naming.ledgerID(review, f.id), f, review.taskID, review.snapshotID, review.reviewer, f.state,
                  "provider:" + review.reviewer.provider, "", "", None, "", now)
  }

  function NewFindings(naming: Naming, review: Review, now: int): seq<FindingRecord>
  {
    Map((f: Finding) => NewFinding(naming, review, f, now), FindingsOf(review))
  }

  function IDOf(record: FindingRecord): string { record.id }

  function IDsOf(records: seq<FindingRecord>): seq<string>
  {
    Map(IDOf, records)
  }

  function BaseFindings(ledger: Ledger): seq<FindingRecord>
  {
    if ledger.schemaVersion == "" then [] else Records(ledger)
  }

  predicate UsableLedger(ledger: Ledger)
  {
    ledger.schemaVersion == "" || (ledger.schemaVersion == "1.0" && ledger.findings.Some?)
  }

  predicate Importable(f: Finding)
  {
    f.state == "reported" || f.state == "needs_confirmation"
  }

  ghost predicate AllImportable(review: Review)
  {
    forall f :: f in FindingsOf(review) ==> Importable(f)
  }

  /** The loop over a result's findings. */
  method CollectFindings(naming: Naming, base: seq<FindingRecord>, review: Review, now: int)
    returns (r: Result<seq<FindingRecord>, RecordError>)
    ensures r.Ok? <==> AllImportable(review) && Fresh(IDsOf(base), IDsOf(NewFindings(naming, review, now)))
    ensures r.Ok? ==> r.value == base + NewFindings(naming, review, now)
  {
    var findings := FindingsOf(review);
    ghost var incoming := NewFindings(naming, review, now);
    ghost var taken, names := IDsOf(base), IDsOf(incoming);
    var records := base;
    var seen := set k | 0 <= k < |base| :: base[k].id;
    SeenTaken(base, seen);
    for i := 0 to |findings|
      invariant records == base + incoming[..i]
      invariant seen == Elements(taken + names[..i]) && Fresh(taken, names[..i])
      invariant forall k :: 0 <= k < i ==> Importable(findings[k])
    {
      if !Importable(findings[i]) {
        assert findings[i] in FindingsOf(review);
        return Err(BadFindingState);
      }
      var record := NewFinding(naming, review, findings[i], now);
      NextName(taken, names, i);
      if record.id in seen {
        return Err(DuplicateFinding);
      }
      seen := seen + {record.id};
      records := records + [record];
    }
    assert incoming[..|findings|] == incoming && names[..|findings|] == names;
    r := Ok(records);
  }

  method ImportFindings(naming: Naming, ledger: Ledger, review: Review, now: int) returns (r: Result<Ledger, RecordError>)
    ensures r.Ok? <==>
      && UsableLedger(ledger) && AllImportable(review)
      && Fresh(IDsOf(BaseFindings(ledger)), IDsOf(NewFindings(naming, review, now)))
    ensures r.Ok? ==>
      && r.value.schemaVersion == "1.0" && r.value.findings.Some?
      && SortedBy(RecordLE, r.value.findings.value)
      && multiset(r.value.findings.value) == multiset(BaseFindings(ledger) + NewFindings(naming, review, now))
  {
    if !UsableLedger(ledger) {
      return Err(BadLedger);
    }
    var records := CollectFindings(naming, BaseFindings(ledger), review, now);
    if records.Err? {
      return Err(records.error);
    }
    RecordOrder();
    var sorted := SortSlice(RecordLE, records.value);
    return Ok(Ledger("1.0", Some(sorted)));
  }

  lemma SeenTaken(base: seq<FindingRecord>, seen: set<string>)
    requires seen == set k | 0 <= k < |base| :: base[k].id
    ensures seen == Elements(IDsOf(base) + [])
  {
    var taken := IDsOf(base);
    assert taken + [] == taken;
    forall id ensures id in seen <==> id in taken {
      if id in seen {
        var k :| 0 <= k < |base| && base[k].id == id;
        assert taken[k] == id;
      }
    }
  }

  /** The next name is fresh exactly when it has not been seen. */
  lemma NextName(taken: seq<string>, names: seq<string>, i: nat)
    requires i < |names| && Fresh(taken, names[..i])
    ensures names[i] !in Elements(taken + names[..i]) <==> Fresh(taken, names[..i + 1])
    ensures names[i] in Elements(taken + names[..i]) ==> !Fresh(taken, names)
    ensures Elements(taken + names[..i + 1]) == Elements(taken + names[..i]) + {names[i]}
  {
    assert names[..i + 1] == names[..i] + [names[i]];
    FreshConcat(taken, names[..i], [names[i]]);
    if Fresh(taken, names) { FreshPrefix(taken, names, i + 1); }
    assert Fresh(taken + names[..i], [names[i]]) <==> names[i] !in taken + names[..i];
  }

  // ----- A batch -----

  /** What a batch adds. */
  function Recorder(naming: Naming, now: int): Item -> Record
  {
    (item: Item) => NewRecord(naming, item, now)
  }

  function Importer(naming: Naming, now: int): Item -> seq<FindingRecord>
  {
    (item: Item) => NewFindings(naming, item.review, now)
  }

  function BatchRecords(naming: Naming, items: seq<Item>, now: int): seq<Record>
  {
    Map(Recorder(naming, now), items)
  }

  function BatchFindings(naming: Naming, items: seq<Item>, now: int): seq<FindingRecord>
  {
    FlatMap(Importer(naming, now), items)
  }

  /** No pass is recorded twice, every finding may be imported, and no finding is named twice. */
  ghost predicate Recordable(naming: Naming, index: ResultIndex.Index, ledger: Ledger, items: seq<Item>, now: int)
  {
    && PassesFit(Base(index), items)
    && (forall item :: item in items ==> AllImportable(item.review))
    && FindingsFit(naming, BaseFindings(ledger), items, now)
  }

  ghost predicate PassesFit(base: seq<Record>, items: seq<Item>)
  {
    Fresh(Map(Pass, base), Map(ItemPass, items))
  }

  ghost predicate FindingsFit(naming: Naming, base: seq<FindingRecord>, items: seq<Item>, now: int)
  {
    Fresh(IDsOf(base), IDsOf(BatchFindings(naming, items, now)))
  }

  /** The index and ledger after recording: everything that was there and everything the batch adds, in order. */
  ghost predicate Recorded(naming: Naming, index: ResultIndex.Index, ledger: Ledger, items: seq<Item>, now: int,
                           after: ResultIndex.Index, ledgerAfter: Ledger)
  {
    if items == [] then after == index && ledgerAfter == ledger
    else
      && after.schemaVersion == "1.0" && after.records.Some? && SortedBy(PassLE, Items(after))
      && multiset(Items(after)) == multiset(Base(index) + BatchRecords(naming, items, now))
      && ledgerAfter.schemaVersion == "1.0" && ledgerAfter.findings.Some? && SortedBy(RecordLE, Records(ledgerAfter))
      && multiset(Records(ledgerAfter)) == multiset(BaseFindings(ledger) + BatchFindings(naming, items, now))
  }

  ghost predicate Acceptable(naming: Naming, index: ResultIndex.Index, ledger: Ledger, items: seq<Item>, now: int)
  {
    (items != [] ==> UsableIndex(index) && UsableLedger(ledger)) && Recordable(naming, index, ledger, items, now)
  }

  /** Whether one more pass fits what has been recorded. */
  lemma IndexStep(naming: Naming, base: seq<Record>, items: seq<Item>, item: Item, now: int, current: seq<Record>)
    requires multiset(current) == multiset(base + BatchRecords(naming, items, now))
    requires Fresh(Map(Pass, base), Map(ItemPass, items))
    ensures Fresh(Map(Pass, current), [ItemPass(item)]) <==> Fresh(Map(Pass, base), Map(ItemPass, items + [item]))
  {
    var added := BatchRecords(naming, items, now);
    MapAppend(ItemPass, items, item);
    assert Map(Pass, added) == Map(ItemPass, items);
    MapConcat(Pass, base, added);
    MapPermutation(Pass, current, base + added);
    FreshConcat(Map(Pass, base), Map(ItemPass, items), [ItemPass(item)]);
    FreshPermutation(Map(Pass, current), Map(Pass, base + added), [ItemPass(item)], [ItemPass(item)]);
  }

  /** Whether more findings fit beside those recorded so far. */
  lemma MoreFindingsFit(base: seq<FindingRecord>, added: seq<FindingRecord>, more: seq<FindingRecord>, current: seq<FindingRecord>)
    requires multiset(current) == multiset(base + added) && Fresh(IDsOf(base), IDsOf(added))
    ensures Fresh(IDsOf(current), IDsOf(more)) <==> Fresh(IDsOf(base), IDsOf(added + more))
  {
    MapConcat(IDOf, base, added);
    MapConcat(IDOf, added, more);
    MapPermutation(IDOf, current, base + added);
    FreshConcat(IDsOf(base), IDsOf(added), IDsOf(more));
    FreshPermutation(IDsOf(current), IDsOf(base + added), IDsOf(more), IDsOf(more));
  }

  lemma LedgerStep(naming: Naming, base: seq<FindingRecord>, items: seq<Item>, item: Item, now: int, current: seq<FindingRecord>)
    requires multiset(current) == multiset(base + BatchFindings(naming, items, now))
    requires Fresh(IDsOf(base), IDsOf(BatchFindings(naming, items, now)))
    ensures Fresh(IDsOf(current), IDsOf(NewFindings(naming, item.review, now))) <==>
      Fresh(IDsOf(base), IDsOf(BatchFindings(naming, items + [item], now)))
  {
    FlatMapLast(Importer(naming, now), items, item);
    MoreFindingsFit(base, BatchFindings(naming, items, now), NewFindings(naming, item.review, now), current);
  }

  /** The conditions under which one more item is appended and imported. */
  ghost predicate Fits(naming: Naming, index: ResultIndex.Index, ledger: Ledger, item: Item, now: int)
  {
    && UsableIndex(index) && Fresh(Map(Pass, Base(index)), [ItemPass(item)])
    && UsableLedger(ledger) && AllImportable(item.review)
    && Fresh(IDsOf(BaseFindings(ledger)), IDsOf(NewFindings(naming, item.review, now)))
  }

  /** The state after one more item. */
  ghost predicate OneRecorded(naming: Naming, index: ResultIndex.Index, ledger: Ledger, item: Item, now: int,
                              after: ResultIndex.Index, ledgerAfter: Ledger)
  {
    && after.schemaVersion == "1.0" && after.records.Some? && SortedBy(PassLE, Items(after))
    && multiset(Items(after)) == multiset(Base(index) + [NewRecord(naming, item, now)])
    && ledgerAfter.schemaVersion == "1.0" && ledgerAfter.findings.Some? && SortedBy(RecordLE, Records(ledgerAfter))
    && multiset(Records(ledgerAfter)) == multiset(BaseFindings(ledger) + NewFindings(naming, item.review, now))
  }

  /** One turn of the loop: append, then import. */
  method RecordOne(naming: Naming, index: ResultIndex.Index, ledger: Ledger, item: Item, now: int)
    returns (r: Result<(ResultIndex.Index, Ledger), RecordError>)
    ensures r.Ok? <==> Fits(naming, index, ledger, item, now)
    ensures r.Ok? ==> OneRecorded(naming, index, ledger, item, now, r.value.0, r.value.1)
  {
    var appended := Append(naming, index, item, now);
    if appended.Err? {
      return Err(appended.error);
    }
    var imported := ImportFindings(naming, ledger, item.review, now);
    if imported.Err? {
      return Err(imported.error);
    }
    return Ok((appended.value, imported.value));
  }

  lemma BatchFits(naming: Naming, index: ResultIndex.Index, ledger: Ledger, items: seq<Item>, item: Item, now: int,
                  current: ResultIndex.Index, currentLedger: Ledger)
    requires Acceptable(naming, index, ledger, items, now)
    requires Recorded(naming, index, ledger, items, now, current, currentLedger)
    ensures Fits(naming, current, currentLedger, item, now) <==> Acceptable(naming, index, ledger, items + [item], now)
  {
    BatchSoFar(naming, index, ledger, items, now, current, currentLedger);
    IndexStep(naming, Base(index), items, item, now, Base(current));
    LedgerStep(naming, BaseFindings(ledger), items, item, now, BaseFindings(currentLedger));
    assert forall i :: i in items + [item] <==> i in items || i == item;
  }

  lemma BatchSoFar(naming: Naming, index: ResultIndex.Index, ledger: Ledger, items: seq<Item>, now: int,
                   current: ResultIndex.Index, currentLedger: Ledger)
    requires Recorded(naming, index, ledger, items, now, current, currentLedger)
    ensures multiset(Base(current)) == multiset(Base(index) + BatchRecords(naming, items, now))
    ensures multiset(BaseFindings(currentLedger)) == multiset(BaseFindings(ledger) + BatchFindings(naming, items, now))
    ensures items != [] ==> UsableIndex(current) && UsableLedger(currentLedger)
  {
    if items == [] {
      assert Base(index) + BatchRecords(naming, items, now) == Base(index);
      assert BaseFindings(ledger) + BatchFindings(naming, items, now) == BaseFindings(ledger);
    }
  }

  lemma BatchGrows(naming: Naming, index: ResultIndex.Index, ledger: Ledger, items: seq<Item>, item: Item, now: int,
                   current: ResultIndex.Index, currentLedger: Ledger, after: ResultIndex.Index, ledgerAfter: Ledger)
    requires Recorded(naming, index, ledger, items, now, current, currentLedger)
    requires OneRecorded(naming, current, currentLedger, item, now, after, ledgerAfter)
    ensures Recorded(naming, index, ledger, items + [item], now, after, ledgerAfter)
  {
    BatchSoFar(naming, index, ledger, items, now, current, currentLedger);
    MapAppend(Recorder(naming, now), items, item);
    FlatMapLast(Importer(naming, now), items, item);
    MultisetGrows(Base(index), BatchRecords(naming, items, now), [NewRecord(naming, item, now)], Base(current), Items(after));
    MultisetGrows(BaseFindings(ledger), BatchFindings(naming, items, now), NewFindings(naming, item.review, now),
                  BaseFindings(currentLedger), Records(ledgerAfter));
  }

  lemma MultisetGrows<T>(base: seq<T>, added: seq<T>, more: seq<T>, current: seq<T>, after: seq<T>)
    requires multiset(current) == multiset(base + added) && multiset(after) == multiset(current + more)
    ensures multiset(after) == multiset(base + (added + more))
  {
    assert base + (added + more) == base + added + more;
  }

  lemma AcceptablePrefix(naming: Naming, index: ResultIndex.Index, ledger: Ledger, items: seq<Item>, now: int, n: nat)
    requires n <= |items|
    ensures Acceptable(naming, index, ledger, items, now) ==> Acceptable(naming, index, ledger, items[..n], now)
  {
    if Acceptable(naming, index, ledger, items, now) && n > 0 {
      var a, b := items[..n], items[n..];
      assert items == a + b;
      MapConcat(ItemPass, a, b);
      FreshConcat(Map(Pass, Base(index)), Map(ItemPass, a), Map(ItemPass, b));
      FlatMapConcat(Importer(naming, now), a, b);
      var x, y := BatchFindings(naming, a, now), BatchFindings(naming, b, now);
      MapConcat(IDOf, x, y);
      FreshConcat(IDsOf(BaseFindings(ledger)), IDsOf(x), IDsOf(y));
    }
  }

  /** One turn of the loop, in terms of the batch so far. */
  method RecordNext(naming: Naming, current: ResultIndex.Index, currentLedger: Ledger, item: Item, now: int,
                    ghost index: ResultIndex.Index, ghost ledger: Ledger, ghost items: seq<Item>)
    returns (r: Result<(ResultIndex.Index, Ledger), RecordError>)
    requires Acceptable(naming, index, ledger, items, now)
    requires Recorded(naming, index, ledger, items, now, current, currentLedger)
    ensures r.Ok? <==> Acceptable(naming, index, ledger, items + [item], now)
    ensures r.Ok? ==> Recorded(naming, index, ledger, items + [item], now, r.value.0, r.value.1)
  {
    BatchFits(naming, index, ledger, items, item, now, current, currentLedger);
    r := RecordOne(naming, current, currentLedger, item, now);
    if r.Ok? {
      BatchGrows(naming, index, ledger, items, item, now, current, currentLedger, r.value.0, r.value.1);
    }
  }

  /** The fold over the batch. */
  method RecordBatch(naming: Naming, index: ResultIndex.Index, ledger: Ledger, items: seq<Item>, now: int)
    returns (r: Result<(ResultIndex.Index, Ledger), RecordError>)
    ensures r.Ok? <==> Acceptable(naming, index, ledger, items, now)
    ensures r.Ok? ==> Recorded(naming, index, ledger, items, now, r.value.0, r.value.1)
  {
    r := Ok((index, ledger));
    for i := 0 to |items|
      invariant r.Ok? && Acceptable(naming, index, ledger, items[..i], now)
      invariant Recorded(naming, index, ledger, items[..i], now, r.value.0, r.value.1)
    {
      assert items[..i + 1] == items[..i] + [items[i]];
      AcceptablePrefix(naming, index, ledger, items, now, i + 1);
      r := RecordNext(naming, r.value.0, r.value.1, items[i], now, index, ledger, items[..i]);
      if r.Err? {
        return;
      }
    }
    assert items[..|items|] == items;
  }

  // ----- Any order -----

  lemma BatchPermutation(naming: Naming, a: seq<Item>, b: seq<Item>, now: int)
    requires multiset(a) == multiset(b)
    ensures multiset(BatchRecords(naming, a, now)) == multiset(BatchRecords(naming, b, now))
    ensures multiset(BatchFindings(naming, a, now)) == multiset(BatchFindings(naming, b, now))
  {
    MapPermutation(Recorder(naming, now), a, b);
    FlatMapPermutation(Importer(naming, now), a, b);
  }

  /** A batch is accepted in every order or in none. */
  lemma AcceptanceIgnoresOrder(naming: Naming, index: ResultIndex.Index, ledger: Ledger, a: seq<Item>, b: seq<Item>, now: int)
    requires multiset(a) == multiset(b)
    ensures Acceptable(naming, index, ledger, a, now) <==> Acceptable(naming, index, ledger, b, now)
  {
    SameLength(a, b);
    MembersPermutation(a, b);
    MapPermutation(ItemPass, a, b);
    BatchPermutation(naming, a, b, now);
    MapPermutation(IDOf, BatchFindings(naming, a, now), BatchFindings(naming, b, now));
    var taken, ids := Map(Pass, Base(index)), IDsOf(BaseFindings(ledger));
    FreshPermutation(taken, taken, Map(ItemPass, a), Map(ItemPass, b));
    FreshPermutation(ids, ids, IDsOf(BatchFindings(naming, a, now)), IDsOf(BatchFindings(naming, b, now)));
  }

  /** No pass and no finding identifier occurs twice before the batch. */
  ghost predicate Unambiguous(index: ResultIndex.Index, ledger: Ledger)
  {
    Distinct(Map(Pass, Base(index))) && Distinct(IDsOf(BaseFindings(ledger)))
  }

  /** Records with distinct keys have one sorted order. */
  lemma SortedRecordsUnique<T(!new), U>(le: (T, T) -> bool, key: T -> U, base: seq<T>, added: seq<T>, xs: seq<T>, ys: seq<T>)
    requires TotalPreorder(le) && forall x, y :: le(x, y) && le(y, x) ==> key(x) == key(y)
    requires Distinct(Map(key, base)) && Fresh(Map(key, base), Map(key, added))
    requires SortedBy(le, xs) && multiset(xs) == multiset(base + added)
    requires SortedBy(le, ys) && multiset(ys) == multiset(base + added)
    ensures xs == ys
  {
    var all := base + added;
    MapConcat(key, base, added);
    DistinctConcat(Map(key, base), Map(key, added));
    var keys := Map(key, all);
    forall x, y | x in all && y in all && le(x, y) && le(y, x) ensures x == y {
      var i :| 0 <= i < |all| && all[i] == x;
      var j :| 0 <= j < |all| && all[j] == y;
      assert keys[i] == keys[j];
    }
    SortSliceDeterministic(le, all, xs, ys);
  }

  /**
   Recording is order-independent: for any two orders of a batch, either neither is accepted or
   both leave the same index and the same ledger, and so the same answer to whether the review
   is complete.
   */
  lemma RecordingIgnoresOrder(naming: Naming, index: ResultIndex.Index, ledger: Ledger, a: seq<Item>, b: seq<Item>, now: int,
                              indexA: ResultIndex.Index, ledgerA: Ledger, indexB: ResultIndex.Index, ledgerB: Ledger)
    requires multiset(a) == multiset(b) && Unambiguous(index, ledger)
    requires Acceptable(naming, index, ledger, a, now)
    requires Recorded(naming, index, ledger, a, now, indexA, ledgerA)
    requires Recorded(naming, index, ledger, b, now, indexB, ledgerB)
    ensures indexA == indexB && ledgerA == ledgerB
    ensures forall tasks :: Complete(Items(indexA), tasks) <==> Complete(Items(indexB), tasks)
  {
    SameLength(a, b);
    if a != [] {
      BatchPermutation(naming, a, b, now);
      PassOrder();
      RecordOrder();
      var base, added := Base(index), BatchRecords(naming, a, now);
      assert Map(Pass, added) == Map(ItemPass, a);
      assert multiset(base + added) == multiset(base + BatchRecords(naming, b, now));
      SortedRecordsUnique(PassLE, Pass, base, added, Items(indexA), Items(indexB));
      var findings, more := BaseFindings(ledger), BatchFindings(naming, a, now);
      assert multiset(findings + more) == multiset(findings + BatchFindings(naming, b, now));
      SortedRecordsUnique(RecordLE, IDOf, findings, more, Records(ledgerA), Records(ledgerB));
    }
  }
}
