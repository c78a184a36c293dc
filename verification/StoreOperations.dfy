/** Every operation of the store writes a safe script, so every reachable state is a good one. */
module StoreOperations {
  import opened Common
  import opened Digests
  import opened Text
  import opened Ordering
  import opened Journal
  import opened RunStore
  import opened StoreSafety

  // ----- Starting a run -----

  ghost predicate Stored(s: StoreState, digest: string)
  {
    digest != "" ==> ValidDigest(digest) && digest in s.blobs
  }

  lemma BlobScriptSafe(c: Crypto, s: StoreState, digest: string, content: string)
    ensures var script := BlobScript(c, s.blobs, digest, content);
      var t := ApplyAll(s, script.steps);
      && AllSafe(c, s, script.steps)
      && t == s.(blobs := t.blobs) && s.blobs.Keys <= t.blobs.Keys
      && (script.result.Ok? ==> Stored(t, digest))
  {
    var script := BlobScript(c, s.blobs, digest, content);
    if script.steps != [] {
      assert script.steps[1..] == [];
      assert ApplyAll(s, script.steps) == Apply(s, script.steps[0]);
    }
  }

  lemma EntryScriptSafe(c: Crypto, s: StoreState, entry: CapturedEntry)
    ensures var script := EntryScript(c, s, entry);
      var t := ApplyAll(s, script.steps);
      && AllSafe(c, s, script.steps)
      && t == s.(blobs := t.blobs) && s.blobs.Keys <= t.blobs.Keys
      && (script.result.Ok? ==> Stored(t, entry.current) && Stored(t, entry.previous))
  {
    var first := if entry.current == "" then Script([], Ok(())) else BlobScript(c, s.blobs, entry.current, entry.currentContent);
    BlobScriptSafe(c, s, entry.current, entry.currentContent);
    if first.result.Ok? && entry.previous != "" {
      var t := ApplyAll(s, first.steps);
      var second := BlobScript(c, t.blobs, entry.previous, entry.previousContent);
      BlobScriptSafe(c, t, entry.previous, entry.previousContent);
      AllSafeConcat(c, s, first.steps, second.steps);
      ApplyAllSplit(s, first.steps, second.steps);
    }
  }

  /** Writing the blobs of a snapshot leaves all of them present when it succeeds. */
  lemma {:induction false} EntriesScriptSafe(c: Crypto, s: StoreState, captured: seq<CapturedEntry>)
    ensures var script := EntriesScript(c, s, captured);
      var t := ApplyAll(s, script.steps);
      && AllSafe(c, s, script.steps)
      && t == s.(blobs := t.blobs) && s.blobs.Keys <= t.blobs.Keys
      && (script.result.Ok? ==>
            forall i :: 0 <= i < |captured| ==> Stored(t, captured[i].current) && Stored(t, captured[i].previous))
    decreases |captured|
  {
    if captured != [] {
      var first := EntryScript(c, s, captured[0]);
      EntryScriptSafe(c, s, captured[0]);
      if first.result.Ok? {
        var t := ApplyAll(s, first.steps);
        var rest := EntriesScript(c, t, captured[1..]);
        EntriesScriptSafe(c, t, captured[1..]);
        AllSafeConcat(c, s, first.steps, rest.steps);
        ApplyAllSplit(s, first.steps, rest.steps);
        if rest.result.Ok? {
          forall i | 0 <= i < |captured|
            ensures Stored(ApplyAll(t, rest.steps), captured[i].current) && Stored(ApplyAll(t, rest.steps), captured[i].previous)
          {
            if i > 0 { assert captured[i] == captured[1..][i - 1]; }
          }
        }
      }
    }
  }

  function DirAfterHead(r: BeginRequest): RunDir
  {
    RunDir(Contents(Some(NewRun(r)), Some(Seal(r.snapshotID, StoredEntries(r.captured), r.evidence)), None,
                    map["inventory.json" := r.inventory]), None)
  }

  lemma BeginHeadSafe(c: Crypto, s: StoreState, r: BeginRequest)
    requires r.key !in s.active && !InTrash(s, r.key)
    ensures AllSafe(c, s, BeginHead(r))
    ensures var t := ApplyAll(s, BeginHead(r));
      t == s.(active := s.active[r.key := DirAfterHead(r)])
  {
    var made := [MakeRun(r.key)];
    var s1 := s.(active := s.active[r.key := EmptyDir]);
    assert BeginHead(r) == made + HeadFiles(r);
    MakeRunSafe(c, s, r.key);
    HeadFilesSafe(c, s1, r);
    AllSafeConcat(c, s, made, HeadFiles(r));
    ApplyAllSplit(s, made, HeadFiles(r));
    assert s1.active[r.key := DirAfterHead(r)] == s.active[r.key := DirAfterHead(r)];
  }

  lemma MakeRunSafe(c: Crypto, s: StoreState, key: RunKey)
    requires key !in s.active
    ensures AllSafe(c, s, [MakeRun(key)]) && ApplyAll(s, [MakeRun(key)]) == s.(active := s.active[key := EmptyDir])
  {
    var step := MakeRun(key);
    assert [step][1..] == [];
    assert ApplyAll(s, [step]) == Apply(s, step);
  }

  lemma FirstStep(c: Crypto, s: StoreState, steps: seq<FileStep>)
    requires steps != [] && SafeStep(c, s, steps[0])
    ensures AllSafe(c, s, steps) <==> AllSafe(c, Apply(s, steps[0]), steps[1..])
    ensures ApplyAll(s, steps) == ApplyAll(Apply(s, steps[0]), steps[1..])
  {
  }

  function HeadFiles(r: BeginRequest): seq<FileStep>
  {
    [ PutRun(r.key, NewRun(r)), PutSeal(r.key, Seal(r.snapshotID, StoredEntries(r.captured), r.evidence)),
      PutFile(r.key, "inventory.json", r.inventory) ]
  }

  /** The files written into the new directory. */
  lemma HeadFilesSafe(c: Crypto, s: StoreState, r: BeginRequest)
    requires r.key in s.active && s.active[r.key] == EmptyDir && !InTrash(s, r.key)
    ensures AllSafe(c, s, HeadFiles(r))
    ensures ApplyAll(s, HeadFiles(r)) == s.(active := s.active[r.key := DirAfterHead(r)])
  {
    var steps := HeadFiles(r);
    var s1 := Apply(s, steps[0]);
    var s2 := Apply(s1, steps[1]);
    FirstStep(c, s, steps);
    assert steps[1..][1..] == [steps[2]] && [steps[2]][1..] == [];
    FirstStep(c, s1, steps[1..]);
    FirstStep(c, s2, [steps[2]]);
  }

  lemma PreparedEventBinds(c: Crypto, r: BeginRequest)
    ensures var event := NextEvent(c.event, [], "run_prepared", PreparedPayload(r), r.eventTime);
      && ChainValid(c.event, [event])
      && JournalState([event], r.snapshotID, r.dataClass) == Some("PREPARED")
  {
    var event := NextEvent(c.event, [], "run_prepared", PreparedPayload(r), r.eventTime);
    NextEventLinks(c.event, [], "run_prepared", PreparedPayload(r), r.eventTime);
    assert [] + [event] == [event];
    var fields := StringMap(event.body.payload);
    assert fields.Some? && fields.value["snapshot_id"] == r.snapshotID && fields.value["data_class"] == r.dataClass;
  }

  lemma StoredEntriesPresent(s: StoreState, r: BeginRequest, d: RunDir)
    requires d.contents.seal == Some(Seal(r.snapshotID, StoredEntries(r.captured), r.evidence))
    requires forall i :: 0 <= i < |r.captured| ==> Stored(s, r.captured[i].current) && Stored(s, r.captured[i].previous)
    ensures BlobsPresent(s.blobs.Keys, d)
  {
  }

  lemma BeginSafe(c: Crypto, s: StoreState, r: BeginRequest)
    requires r.key !in s.active && !InTrash(s, r.key)
    ensures AllSafe(c, s, BeginScript(c, s, r).steps)
  {
    if r.dataClass in DataClasses {
      var head := BeginHead(r);
      var s1 := ApplyAll(s, head);
      BeginHeadSafe(c, s, r);
      var blobs := EntriesScript(c, s1, r.captured);
      EntriesScriptSafe(c, s1, r.captured);
      AllSafeConcat(c, s, head, blobs.steps);
      ApplyAllSplit(s, head, blobs.steps);
      if blobs.result.Ok? {
        var s2 := ApplyAll(s1, blobs.steps);
        PreparedEventSafe(c, s2, r);
        AllSafeConcat(c, s, head + blobs.steps, AppendScript(c, s2, r.key, "run_prepared", PreparedPayload(r), r.eventTime).steps);
      }
    }
  }

  /** Once every blob is stored, the event that makes the run loadable is safe. */
  lemma PreparedEventSafe(c: Crypto, s: StoreState, r: BeginRequest)
    requires r.key in s.active && s.active[r.key] == DirAfterHead(r) && !InTrash(s, r.key) && r.dataClass in DataClasses
    requires forall i :: 0 <= i < |r.captured| ==> Stored(s, r.captured[i].current) && Stored(s, r.captured[i].previous)
    ensures AllSafe(c, s, AppendScript(c, s, r.key, "run_prepared", PreparedPayload(r), r.eventTime).steps)
  {
    var d := s.active[r.key];
    var steps := AppendScript(c, s, r.key, "run_prepared", PreparedPayload(r), r.eventTime).steps;
    PreparedEventBinds(c, r);
    assert JournalOf(ApplyToDir(d, steps[0])) == [steps[0].event];
    StoredEntriesPresent(s, r, ApplyToDir(d, steps[0]));
    assert SafeStep(c, s, steps[0]);
    assert steps[1..] == [];
  }

  // ----- Commands on a loaded run -----

  /** What a successful `LoadRun` establishes and every action keeps: no lag, not archived, not collected. */
  ghost predicate Loadable(c: Crypto, s: StoreState, key: RunKey)
  {
    && key in s.active && !InTrash(s, key) && s.active[key].archive.None?
    && s.active[key].contents.journal.Some?
    && RunOK(c, s.blobs.Keys, key, s.active[key])
    && InStep(s.active[key])
  }

  predicate InStep(d: RunDir)
  {
    d.contents.run.Some? &&
    JournalState(JournalOf(d), d.contents.run.value.snapshotID, d.contents.run.value.dataClass)
      == Some(d.contents.run.value.state)
  }

  lemma LoadRunMakesLoadable(c: Crypto, s: StoreState, key: RunKey)
    requires StoreOK(c, s) && LoadRun(c, s, key).Ok?
    ensures Loadable(c, s, key)
  {
    assert key in s.active;
    assert RunOK(c, s.blobs.Keys, key, s.active[key]);
    JournaledIsNotCollected(c, s, key);
  }

  /** A directory whose name is in a trash is empty. */
  lemma JournaledIsNotCollected(c: Crypto, s: StoreState, key: RunKey)
    requires TrashOK(c, s) && key in s.active && s.active[key] != EmptyDir
    ensures !InTrash(s, key)
  {
    CollectedStayEmpty(c, s);
  }

  /** Conversely a loadable run loads, with the state its journal derives. */
  lemma LoadableLoads(c: Crypto, s: StoreState, key: RunKey)
    requires Loadable(c, s, key)
    ensures LoadRun(c, s, key) == Ok((s.active[key].contents.run.value, s.active[key].contents.seal.value))
  {
  }

  lemma AppendLineKeeps(c: Crypto, d: RunDir, key: RunKey, kind: string, payload: Payload, now: int)
    requires d.contents.journal.Some? && d.contents.run.Some? && JournalOK(c, key, d)
    ensures var event := NextEvent(c.event, JournalOf(d), kind, payload, now);
      var d' := ApplyToDir(d, AppendLine(key, event));
      && JournalOf(d') == JournalOf(d) + [event] && ChainValid(c.event, JournalOf(d'))
      && var run := d.contents.run.value;
         var before := JournalState(JournalOf(d), run.snapshotID, run.dataClass);
      && before.Some?
      && JournalState(JournalOf(d'), run.snapshotID, run.dataClass) == Advance(before.value, event)
  {
    var event := NextEvent(c.event, JournalOf(d), kind, payload, now);
    var run := d.contents.run.value;
    NextEventLinks(c.event, JournalOf(d), kind, payload, now);
    JournalStateAppend(JournalOf(d), event, run.snapshotID, run.dataClass);
  }

  lemma RecordSafe(c: Crypto, s: StoreState, key: RunKey, kind: string, payload: Payload, now: int)
    requires Loadable(c, s, key) && kind != "state_transition"
    ensures var steps := AppendScript(c, s, key, kind, payload, now).steps;
      AllSafe(c, s, steps) && Loadable(c, ApplyAll(s, steps), key)
  {
    var steps := AppendScript(c, s, key, kind, payload, now).steps;
    AppendLineKeeps(c, s.active[key], key, kind, payload, now);
    assert steps[1..] == [];
    assert ApplyAll(s, steps) == Apply(s, steps[0]);
  }

  lemma TransitionDecodes(from: string, to: string)
    ensures var fields := StringMap(TransitionPayload(from, to));
      fields.Some? && Lookup(fields.value, "from") == from && Lookup(fields.value, "to") == to
  {
    var fields := StringMap(TransitionPayload(from, to));
    assert "from" != "to";
    assert fields.value["from"] == from && fields.value["to"] == to;
  }

  lemma UpdateSafe(c: Crypto, s: StoreState, key: RunKey, next: string, eventTime: int, now: int)
    requires Loadable(c, s, key)
    ensures var script := UpdateScript(c, s, key, next, eventTime, now);
      && AllSafe(c, s, script.steps) && Loadable(c, ApplyAll(s, script.steps), key)
      && (script.result.Ok? <==> AllowedTransition(s.active[key].contents.run.value.state, next))
  {
    var script := UpdateScript(c, s, key, next, eventTime, now);
    var d := s.active[key];
    var run := d.contents.run.value;
    if AllowedTransition(run.state, next) {
      AppendLineKeeps(c, d, key, "state_transition", TransitionPayload(run.state, next), eventTime);
      TransitionDecodes(run.state, next);
      var s1 := Apply(s, script.steps[0]);
      var s2 := Apply(s1, script.steps[1]);
      assert script.steps[1..] == [script.steps[1]] && script.steps[1..][1..] == [];
      assert SafeStep(c, s, script.steps[0]);
      assert SafeStep(c, s1, script.steps[1]);
      assert ApplyAll(s1, script.steps[1..]) == s2;
      assert ApplyAll(s, script.steps) == s2;
      assert AllSafe(c, s1, script.steps[1..]);
    }
  }

  lemma FileSafe(c: Crypto, s: StoreState, step: FileStep)
    requires (step.PutFile? || step.DropFile?) && Loadable(c, s, step.key)
    ensures AllSafe(c, s, [step]) && Loadable(c, ApplyAll(s, [step]), step.key)
  {
    assert [step][1..] == [];
    assert ApplyAll(s, [step]) == Apply(s, step);
  }

  lemma ActionSafe(c: Crypto, s: StoreState, key: RunKey, action: Action)
    requires Loadable(c, s, key) && (action.Record? ==> action.kind != "state_transition")
    ensures var steps := ActionScript(c, s, key, action).steps;
      AllSafe(c, s, steps) && Loadable(c, ApplyAll(s, steps), key)
  {
    match action
    case Record(kind, payload, now) => RecordSafe(c, s, key, kind, payload, now);
    case MoveTo(next, eventTime, now) => UpdateSafe(c, s, key, next, eventTime, now);
    case Write(path, content) => FileSafe(c, s, PutFile(key, path, content));
    case Remove(path) => FileSafe(c, s, DropFile(key, path));
  }

  lemma {:induction false} ActionsSafe(c: Crypto, s: StoreState, key: RunKey, actions: seq<Action>)
    requires Loadable(c, s, key)
    requires forall i :: 0 <= i < |actions| && actions[i].Record? ==> actions[i].kind != "state_transition"
    ensures var steps := ActionsScript(c, s, key, actions).steps;
      AllSafe(c, s, steps) && Loadable(c, ApplyAll(s, steps), key)
    decreases |actions|
  {
    if actions != [] {
      var first := ActionScript(c, s, key, actions[0]);
      ActionSafe(c, s, key, actions[0]);
      if first.result.Ok? {
        var t := ApplyAll(s, first.steps);
        var rest := ActionsScript(c, t, key, actions[1..]);
        ActionsSafe(c, t, key, actions[1..]);
        AllSafeConcat(c, s, first.steps, rest.steps);
        ApplyAllSplit(s, first.steps, rest.steps);
      }
    }
  }

  // ----- Recovery -----

  lemma RecoverSafe(c: Crypto, s: StoreState, key: RunKey, expected: string, now: int, eventTime: int)
    requires StoreOK(c, s)
    ensures AllSafe(c, s, RecoverScript(c, s, key, expected, now, eventTime).steps)
  {
    var steps := RecoverScript(c, s, key, expected, now, eventTime).steps;
    if key !in s.active {
      assert ApplyToDir(Dir(s, key), MakeRun(key)) == EmptyDir;
      assert steps != [] ==> steps[1..] == [];
    } else if steps != [] {
      RecoverWrites(c, s, key, expected, now, eventTime);
    }
  }

  lemma RecoverWrites(c: Crypto, s: StoreState, key: RunKey, expected: string, now: int, eventTime: int)
    requires StoreOK(c, s) && key in s.active && RecoverScript(c, s, key, expected, now, eventTime).steps != []
    ensures var steps := RecoverScript(c, s, key, expected, now, eventTime).steps;
      && |steps| == 2 && AllSafe(c, s, steps)
      && Loadable(c, Apply(s, steps[0]), key) && Loadable(c, ApplyAll(s, steps), key)
  {
    var steps := RecoverScript(c, s, key, expected, now, eventTime).steps;
    var d := s.active[key];
    assert RunOK(c, s.blobs.Keys, key, d);
    assert d.archive.None?;
    JournaledIsNotCollected(c, s, key);
    var s1 := Apply(s, steps[0]);
    assert JournalOf(s1.active[key]) == JournalOf(d);
    assert Loadable(c, s1, key);
    var payload := map["persisted_state" := Text(d.contents.run.value.state), "journal_state" := Text(s1.active[key].contents.run.value.state)];
    assert steps[1..] == AppendScript(c, s1, key, "run_recovered", payload, eventTime).steps;
    RecordSafe(c, s1, key, "run_recovered", payload, eventTime);
  }

  // ----- Archiving -----

  lemma FactsDecode(f: ArchiveFacts)
    ensures DecodeFacts(EncodeFacts(f)) == Some(f)
  {
    var payload := EncodeFacts(f);
    assert "pinned" != "reason" && "pinned" != "state" && "reason" != "state" by {
      assert "pinned"[0] != "reason"[0];
    }
    assert payload["pinned"] == Flag(f.pinned) && payload["reason"] == Text(f.reason) && payload["state"] == Text(f.state);
  }

  /** A record sealed over a directory whose last event states its facts verifies against that directory. */
  lemma SealedRecordVerifies(c: Crypto, r: ArchiveRequest, d: RunDir)
    requires d.contents.journal.Some? && ChainValid(c.event, JournalOf(d)) && d.contents.run.Some?
    requires var last := JournalOf(d)[|JournalOf(d)| - 1];
      && last.body.kind == "run_archived"
      && DecodeFacts(last.body.payload) == Some(ArchiveFacts(r.pinned, TrimSpace(r.reason), d.contents.run.value.state))
    ensures var last := JournalOf(d)[|JournalOf(d)| - 1];
      var record := SealedRecord(c, r, d.contents.run.value.state, last, d.contents);
      && RecordIntact(c, record) && RecordNames(record, r.key) && ArchiveVerified(c, d, record)
      && ArchiveVerified(c, d.(archive := Some(record)), record)
  {
    var last := JournalOf(d)[|JournalOf(d)| - 1];
    assert LinkedAt(c.event, JournalOf(d), |JournalOf(d)| - 1);
    var record := SealedRecord(c, r, d.contents.run.value.state, last, d.contents);
    assert record.(recordDigest := "").(recordDigest := record.recordDigest) == record;
    assert JournalOf(d.(archive := Some(record))) == JournalOf(d);
  }

  lemma ArchiveLastStepSafe(c: Crypto, s: StoreState, r: ArchiveRequest)
    requires Loadable(c, s, r.key) && ValidKey(r.key)
    requires var d := s.active[r.key];
      var last := JournalOf(d)[|JournalOf(d)| - 1];
      && last.body.kind == "run_archived"
      && DecodeFacts(last.body.payload) == Some(ArchiveFacts(r.pinned, TrimSpace(r.reason), d.contents.run.value.state))
    ensures var d := s.active[r.key];
      var last := JournalOf(d)[|JournalOf(d)| - 1];
      var record := SealedRecord(c, r, d.contents.run.value.state, last, d.contents);
      AllSafe(c, s, [PutArchive(r.key, record)])
  {
    var d := s.active[r.key];
    var last := JournalOf(d)[|JournalOf(d)| - 1];
    var record := SealedRecord(c, r, d.contents.run.value.state, last, d.contents);
    SealedRecordVerifies(c, r, d);
    var step := PutArchive(r.key, record);
    assert ApplyToDir(d, step) == d.(archive := Some(record));
    assert JournalOf(ApplyToDir(d, step)) == JournalOf(d);
    assert SafeStep(c, s, step);
    assert [step][1..] == [];
  }

  lemma ArchiveLoadable(c: Crypto, s: StoreState, r: ArchiveRequest)
    requires StoreOK(c, s) && ArchiveScript(c, s, r).result.Ok?
    ensures Loadable(c, s, r.key) && s.active[r.key].contents.run.value.state in ArchivableStates
  {
    assert RunOK(c, s.blobs.Keys, r.key, s.active[r.key]);
    JournaledIsNotCollected(c, s, r.key);
  }

  lemma ArchiveResumedSafe(c: Crypto, s: StoreState, r: ArchiveRequest)
    requires StoreOK(c, s) && ArchiveScript(c, s, r).result.Ok? && |ArchiveScript(c, s, r).steps| == 1
    ensures AllSafe(c, s, ArchiveScript(c, s, r).steps)
  {
    ArchiveLoadable(c, s, r);
    ArchiveLastStepSafe(c, s, r);
  }

  lemma ArchiveFreshSafe(c: Crypto, s: StoreState, r: ArchiveRequest)
    requires StoreOK(c, s) && ArchiveScript(c, s, r).result.Ok? && |ArchiveScript(c, s, r).steps| == 2
    ensures AllSafe(c, s, ArchiveScript(c, s, r).steps)
  {
    var steps := ArchiveScript(c, s, r).steps;
    ArchiveEventFirst(c, s, r);
    ArchiveLastStepSafe(c, Apply(s, steps[0]), r);
    TwoStepsSafe(c, s, steps);
  }

  lemma TwoStepsSafe(c: Crypto, s: StoreState, steps: seq<FileStep>)
    requires |steps| == 2 && AllSafe(c, s, [steps[0]]) && AllSafe(c, Apply(s, steps[0]), [steps[1]])
    ensures AllSafe(c, s, steps)
  {
    assert steps == [steps[0]] + [steps[1]];
    assert [steps[0]][1..] == [];
    assert ApplyAll(s, [steps[0]]) == Apply(s, steps[0]);
    AllSafeConcat(c, s, [steps[0]], [steps[1]]);
  }

  lemma ArchiveSafe(c: Crypto, s: StoreState, r: ArchiveRequest)
    requires StoreOK(c, s)
    ensures AllSafe(c, s, ArchiveScript(c, s, r).steps)
  {
    var script := ArchiveScript(c, s, r);
    if |script.steps| == 1 {
      ArchiveResumedSafe(c, s, r);
    } else if |script.steps| == 2 {
      ArchiveFreshSafe(c, s, r);
    }
  }

  /** Between the archive event and `archive.json` the run is loadable and its last event states the facts. */
  lemma ArchiveEventFirst(c: Crypto, s: StoreState, r: ArchiveRequest)
    requires StoreOK(c, s) && ArchiveScript(c, s, r).result.Ok? && |ArchiveScript(c, s, r).steps| == 2
    ensures var steps := ArchiveScript(c, s, r).steps;
      var s1 := Apply(s, steps[0]);
      && AllSafe(c, s, [steps[0]])
      && Loadable(c, s1, r.key)
      && var d := s1.active[r.key];
         var last := JournalOf(d)[|JournalOf(d)| - 1];
      && last.body.kind == "run_archived"
      && DecodeFacts(last.body.payload) == Some(ArchiveFacts(r.pinned, TrimSpace(r.reason), d.contents.run.value.state))
      && steps[1] == PutArchive(r.key, SealedRecord(c, r, d.contents.run.value.state, last, d.contents))
      && d.contents.run == s.active[r.key].contents.run
  {
    ArchiveLoadable(c, s, r);
    FreshArchiveShape(c, s, r);
    var facts := ArchiveFacts(r.pinned, TrimSpace(r.reason), s.active[r.key].contents.run.value.state);
    ArchiveEventSafe(c, s, r.key, facts, r.eventTime, ArchiveScript(c, s, r).steps[0]);
  }

  /** A first archiving writes the event of the facts and then the record sealed over it. */
  lemma FreshArchiveShape(c: Crypto, s: StoreState, r: ArchiveRequest)
    requires r.key in s.active && ArchiveScript(c, s, r).result.Ok? && |ArchiveScript(c, s, r).steps| == 2
    ensures var steps := ArchiveScript(c, s, r).steps;
      var d := s.active[r.key];
      && d.contents.run.Some?
      && var facts := ArchiveFacts(r.pinned, TrimSpace(r.reason), d.contents.run.value.state);
         var event := NextEvent(c.event, JournalOf(d), "run_archived", EncodeFacts(facts), r.eventTime);
      && steps[0] == AppendLine(r.key, event)
      && steps[1] == PutArchive(r.key, SealedRecord(c, r, d.contents.run.value.state, event, ApplyToDir(d, steps[0]).contents))
  {
  }

  lemma ArchiveEventSafe(c: Crypto, s: StoreState, key: RunKey, facts: ArchiveFacts, eventTime: int, step: FileStep)
    requires Loadable(c, s, key)
    requires step == AppendLine(key, NextEvent(c.event, JournalOf(s.active[key]), "run_archived", EncodeFacts(facts), eventTime))
    ensures AllSafe(c, s, [step]) && Loadable(c, Apply(s, step), key)
    ensures var d := Apply(s, step).active[key];
      var last := JournalOf(d)[|JournalOf(d)| - 1];
      && d == ApplyToDir(s.active[key], step) && d.contents.run == s.active[key].contents.run
      && last == step.event && last.body.kind == "run_archived" && DecodeFacts(last.body.payload) == Some(facts)
  {
    FactsDecode(facts);
    RecordSafe(c, s, key, "run_archived", EncodeFacts(facts), eventTime);
    assert [step] == AppendScript(c, s, key, "run_archived", EncodeFacts(facts), eventTime).steps;
    assert [step][1..] == [];
    assert ApplyAll(s, [step]) == Apply(s, step);
  }

  // ----- Garbage collection -----

  lemma PlanSafe(c: Crypto, s: StoreState, repository: string, days: int, asOf: int)
    requires PlansWithoutCollision(c, s, repository, days, asOf)
    ensures AllSafe(c, s, PlanScript(c, s, repository, days, asOf).steps)
  {
    var script := PlanScript(c, s, repository, days, asOf);
    if script.result.Ok? {
      var plan := script.result.value;
      assert plan.(planDigest := "").(planDigest := plan.planDigest) == plan;
      assert script.steps[1..] == [];
    }
  }

  /** A candidate that is still in place is archived and eligible under the plan. */
  ghost predicate Movable(s: StoreState, plan: GCPlan, key: RunKey)
  {
    && key in Keys(plan.candidates)
    && (key in s.active ==>
          && s.active[key].archive.Some?
          && Eligible(s.active[key], s.active[key].archive.value, plan.asOf - Retention(plan.retentionDays)))
  }

  /** The rename loop touches nothing but the active runs and this plan's trash. */
  lemma {:induction false} MovesTouch(s: StoreState, planDigest: string, candidates: seq<GCCandidate>)
    ensures var t := ApplyAll(s, MoveScript(s, planDigest, candidates).steps);
      t == s.(active := t.active, trash := t.trash) && t.trash - {planDigest} == s.trash - {planDigest}
    decreases |candidates|
  {
    if candidates != [] {
      var key := KeyOf(candidates[0]);
      if key !in s.active {
        MovesTouch(s, planDigest, candidates[1..]);
      } else if key !in TrashOf(s, planDigest) {
        var t := Apply(s, MoveRun(planDigest, key));
        MovesTouch(t, planDigest, candidates[1..]);
        assert t.trash - {planDigest} == s.trash - {planDigest};
      }
    }
  }

  /** It leaves no candidate in place. */
  lemma {:induction false} MovesEmpty(s: StoreState, planDigest: string, candidates: seq<GCCandidate>)
    ensures var script := MoveScript(s, planDigest, candidates);
      script.result.Ok? ==> ApplyAll(s, script.steps).active == s.active - Keys(candidates)
    decreases |candidates|
  {
    if candidates == [] {
      assert s.active - Keys(candidates) == s.active;
    } else {
      var key := KeyOf(candidates[0]);
      KeysSplit(candidates);
      if key !in s.active {
        MovesEmpty(s, planDigest, candidates[1..]);
        assert s.active - Keys(candidates) == s.active - Keys(candidates[1..]);
      } else if key !in TrashOf(s, planDigest) {
        var t := Apply(s, MoveRun(planDigest, key));
        MovesEmpty(t, planDigest, candidates[1..]);
        assert t.active - Keys(candidates[1..]) == s.active - Keys(candidates);
      }
    }
  }

  lemma MovesResult(s: StoreState, planDigest: string, candidates: seq<GCCandidate>)
    ensures var script := MoveScript(s, planDigest, candidates);
      var t := ApplyAll(s, script.steps);
      && t == s.(active := t.active, trash := t.trash)
      && t.trash - {planDigest} == s.trash - {planDigest}
      && (script.result.Ok? ==> t.active == s.active - Keys(candidates))
  {
    MovesTouch(s, planDigest, candidates);
    MovesEmpty(s, planDigest, candidates);
  }

  lemma MoveKeepsMovable(s: StoreState, plan: GCPlan, moved: RunKey, key: RunKey)
    requires Movable(s, plan, key)
    ensures Movable(Apply(s, MoveRun(plan.planDigest, moved)), plan, key)
  {
  }

  /** Each rename is safe. */
  lemma {:induction false} MovesSafe(c: Crypto, s: StoreState, plan: GCPlan, candidates: seq<GCCandidate>)
    requires plan.planDigest !in s.executions && plan.planDigest in s.plans && s.plans[plan.planDigest] == plan
    requires forall i :: 0 <= i < |candidates| ==> Movable(s, plan, KeyOf(candidates[i]))
    ensures AllSafe(c, s, MoveScript(s, plan.planDigest, candidates).steps)
    decreases |candidates|
  {
    if candidates != [] {
      var key := KeyOf(candidates[0]);
      assert Movable(s, plan, key);
      forall i | 0 <= i < |candidates[1..]| ensures Movable(s, plan, KeyOf(candidates[1..][i])) {
        assert Movable(s, plan, KeyOf(candidates[i + 1]));
      }
      if key !in s.active {
        MovesSafe(c, s, plan, candidates[1..]);
      } else if key !in TrashOf(s, plan.planDigest) {
        var step := MoveRun(plan.planDigest, key);
        var t := Apply(s, step);
        forall i | 0 <= i < |candidates[1..]| ensures Movable(t, plan, KeyOf(candidates[1..][i])) {
          MoveKeepsMovable(s, plan, key, KeyOf(candidates[1..][i]));
        }
        MovesSafe(c, t, plan, candidates[1..]);
        var rest := MoveScript(t, plan.planDigest, candidates[1..]).steps;
        assert ([step] + rest)[1..] == rest;
        assert SafeStep(c, s, step);
      }
    }
  }

  lemma KeysSplit(candidates: seq<GCCandidate>)
    requires candidates != []
    ensures Keys(candidates) == {KeyOf(candidates[0])} + Keys(candidates[1..])
  {
    forall key ensures key in Keys(candidates) <==> key in {KeyOf(candidates[0])} + Keys(candidates[1..]) {
      if key in Keys(candidates) {
        var i :| 0 <= i < |candidates| && KeyOf(candidates[i]) == key;
        if i > 0 { assert KeyOf(candidates[1..][i - 1]) == key; }
      }
      if key in Keys(candidates[1..]) {
        var i :| 0 <= i < |candidates[1..]| && KeyOf(candidates[1..][i]) == key;
        assert KeyOf(candidates[i + 1]) == key;
      }
    }
  }

  ghost predicate Unreferenced(s: StoreState, digests: seq<string>)
  {
    forall key :: key in s.active ==> DirReferences(s.active[key]) !! Elements(digests)
  }

  lemma UnreferencedRest(s: StoreState, digests: seq<string>)
    requires digests != [] && Unreferenced(s, digests)
    ensures Unreferenced(s, digests[1..]) && forall key :: key in s.active ==> digests[0] !in DirReferences(s.active[key])
  {
    assert Elements(digests) == {digests[0]} + Elements(digests[1..]);
  }

  lemma {:induction false} DropsAllSafe(c: Crypto, s: StoreState, digests: seq<string>)
    requires Unreferenced(s, digests)
    ensures AllSafe(c, s, DropScript(c, s, digests).steps)
    decreases |digests|
  {
    if digests != [] && ValidDigest(digests[0]) {
      UnreferencedRest(s, digests);
      if digests[0] !in s.blobs {
        DropsAllSafe(c, s, digests[1..]);
      } else if c.bytes(s.blobs[digests[0]]) == digests[0] {
        DropsAllSafe(c, Apply(s, DropBlob(digests[0])), digests[1..]);
      }
    }
  }

  /** The deletion loop removes exactly the planned blobs. */
  lemma {:induction false} DropsRemove(c: Crypto, s: StoreState, digests: seq<string>)
    ensures var script := DropScript(c, s, digests);
      var t := ApplyAll(s, script.steps);
      && t == s.(blobs := t.blobs)
      && (script.result.Ok? ==> t.blobs == s.blobs - Elements(digests))
    decreases |digests|
  {
    if digests == [] {
      assert s.blobs - Elements(digests) == s.blobs;
    } else if ValidDigest(digests[0]) {
      assert Elements(digests) == {digests[0]} + Elements(digests[1..]);
      if digests[0] !in s.blobs {
        DropsRemove(c, s, digests[1..]);
        assert s.blobs - Elements(digests) == s.blobs - Elements(digests[1..]);
      } else if c.bytes(s.blobs[digests[0]]) == digests[0] {
        var t := Apply(s, DropBlob(digests[0]));
        DropsRemove(c, t, digests[1..]);
        assert t.blobs - Elements(digests[1..]) == s.blobs - Elements(digests);
      }
    }
  }

  /** The deletion loop is safe when no active run references a planned blob; it removes exactly the planned ones. */
  lemma DropsSafe(c: Crypto, s: StoreState, digests: seq<string>)
    requires Unreferenced(s, digests)
    ensures var script := DropScript(c, s, digests);
      var t := ApplyAll(s, script.steps);
      && AllSafe(c, s, script.steps)
      && t == s.(blobs := t.blobs)
      && (script.result.Ok? ==> t.blobs == s.blobs - Elements(digests))
  {
    DropsAllSafe(c, s, digests);
    DropsRemove(c, s, digests);
  }

  lemma PurgeSafe(c: Crypto, s: StoreState, planDigest: string, remains: map<RunKey, RunDir>)
    requires planDigest in s.executions
    ensures AllSafe(c, s, PurgeSteps(planDigest, remains))
    ensures ApplyAll(s, PurgeSteps(planDigest, remains)) == s.(trash := s.trash - {planDigest})
  {
    var steps := PurgeSteps(planDigest, remains);
    var t := Apply(s, steps[0]);
    assert steps[1..] == [steps[1]] && steps[1..][1..] == [];
    assert AllSafe(c, t, steps[1..]);
    assert ApplyAll(t, steps[1..]) == Apply(t, steps[1]);
    assert t.trash - {planDigest} == s.trash - {planDigest};
  }

  lemma AcceptedCandidatesMove(c: Crypto, s: StoreState, plan: GCPlan)
    requires PlanAccepted(c, s, plan)
    ensures forall i :: 0 <= i < |plan.candidates| ==> Movable(s, plan, KeyOf(plan.candidates[i]))
  {
    forall i | 0 <= i < |plan.candidates| ensures Movable(s, plan, KeyOf(plan.candidates[i])) {
      assert CandidateAccepted(c, s, plan, plan.candidates[i]);
    }
  }

  /** The blobs an accepted plan lists are those its candidates reference and no other run does. */
  lemma AcceptedBlobs(c: Crypto, s: StoreState, plan: GCPlan)
    requires PlanAccepted(c, s, plan)
    ensures Elements(plan.blobDigests) == CandidateReferences(s, plan) - Retained(s, Keys(plan.candidates))
  {
    ListingOf(CandidateReferences(s, plan) - Retained(s, Keys(plan.candidates)));
  }

  /** Once every candidate is out of the way no active run references a planned blob. */
  lemma PlannedBlobsUnreferenced(c: Crypto, s: StoreState, plan: GCPlan, t: StoreState)
    requires PlanAccepted(c, s, plan) && t.active == s.active - Keys(plan.candidates)
    ensures forall key :: key in t.active ==> DirReferences(t.active[key]) !! Elements(plan.blobDigests)
  {
    AcceptedBlobs(c, s, plan);
    forall key, d | key in t.active && d in DirReferences(t.active[key]) ensures d !in Elements(plan.blobDigests) {
      assert d in Retained(s, Keys(plan.candidates));
    }
  }

  /** Recording the execution and emptying the trash, once the candidates and the planned blobs are gone. */
  lemma EndSafe(c: Crypto, s: StoreState, plan: GCPlan, now: int, remains: map<RunKey, RunDir>)
    requires plan.planDigest in s.plans && s.plans[plan.planDigest] == plan
    requires forall key :: key in Keys(plan.candidates) ==> key !in s.active
    requires forall d :: d in plan.blobDigests ==> d !in s.blobs
    ensures var steps := [PutExecution(ExecutionOf(plan, now))] + PurgeSteps(plan.planDigest, remains);
      && AllSafe(c, s, steps)
      && ApplyAll(s, steps) == s.(trash := s.trash - {plan.planDigest},
                                  executions := s.executions[plan.planDigest := ExecutionOf(plan, now)])
  {
    var record := PutExecution(ExecutionOf(plan, now));
    var t := Apply(s, record);
    assert SafeStep(c, s, record);
    assert [record][1..] == [];
    assert ApplyAll(s, [record]) == t && AllSafe(c, s, [record]);
    PurgeSafe(c, t, plan.planDigest, remains);
    AllSafeConcat(c, s, [record], PurgeSteps(plan.planDigest, remains));
    ApplyAllSplit(s, [record], PurgeSteps(plan.planDigest, remains));
  }

  /** What the renames and removals leave: the candidates and the planned blobs gone, and the candidates perhaps in the trash. */
  ghost predicate Cleared(s: StoreState, plan: GCPlan, t: StoreState)
  {
    && t == s.(active := s.active - Keys(plan.candidates), trash := t.trash, blobs := s.blobs - Elements(plan.blobDigests))
    && t.trash - {plan.planDigest} == s.trash - {plan.planDigest}
  }

  lemma ClearSafe(c: Crypto, s: StoreState, plan: GCPlan, moves: Script<()>, drops: Script<()>)
    requires plan.planDigest !in s.executions && plan.planDigest in s.plans && s.plans[plan.planDigest] == plan
    requires PlanAccepted(c, s, plan) && moves == MoveScript(s, plan.planDigest, plan.candidates)
    requires drops == DropScript(c, ApplyAll(s, moves.steps), plan.blobDigests)
    ensures AllSafe(c, s, moves.steps)
    ensures moves.result.Ok? ==> AllSafe(c, s, moves.steps + drops.steps)
    ensures moves.result.Ok? && drops.result.Ok? ==> Cleared(s, plan, ApplyAll(s, moves.steps + drops.steps))
  {
    AcceptedCandidatesMove(c, s, plan);
    MovesSafe(c, s, plan, plan.candidates);
    MovesResult(s, plan.planDigest, plan.candidates);
    if moves.result.Ok? {
      var t := ApplyAll(s, moves.steps);
      PlannedBlobsUnreferenced(c, s, plan, t);
      DropsSafe(c, t, plan.blobDigests);
      AllSafeConcat(c, s, moves.steps, drops.steps);
      ApplyAllSplit(s, moves.steps, drops.steps);
    }
  }

  lemma ClearedEnd(c: Crypto, s: StoreState, plan: GCPlan, t: StoreState, now: int, remains: map<RunKey, RunDir>)
    requires plan.planDigest in s.plans && s.plans[plan.planDigest] == plan && Cleared(s, plan, t)
    ensures var steps := [PutExecution(ExecutionOf(plan, now))] + PurgeSteps(plan.planDigest, remains);
      && AllSafe(c, t, steps)
      && ApplyAll(t, steps) == StoreState(
           s.active - Keys(plan.candidates), s.trash - {plan.planDigest}, s.blobs - Elements(plan.blobDigests),
           s.plans, s.executions[plan.planDigest := ExecutionOf(plan, now)])
  {
    EndSafe(c, t, plan, now, remains);
  }

  lemma SweepShape(c: Crypto, s: StoreState, plan: GCPlan, now: int, remains: map<RunKey, RunDir>, moves: Script<()>, drops: Script<()>)
    requires moves == MoveScript(s, plan.planDigest, plan.candidates)
    requires drops == DropScript(c, ApplyAll(s, moves.steps), plan.blobDigests)
    ensures SweepScript(c, s, plan, now, remains) ==
      if moves.result.Err? then Script(moves.steps, Err(moves.result.error))
      else if drops.result.Err? then Script(moves.steps + drops.steps, Err(drops.result.error))
      else Script(moves.steps + drops.steps + ([PutExecution(ExecutionOf(plan, now))] + PurgeSteps(plan.planDigest, remains)),
                  Ok(ExecutionOf(plan, now)))
  {
    var a, record, purge := moves.steps + drops.steps, [PutExecution(ExecutionOf(plan, now))], PurgeSteps(plan.planDigest, remains);
    assert a + record + purge == a + (record + purge);
  }

  /** The write half of `ExecuteGC`: safe throughout, and what it leaves when it runs to the end. */
  lemma SweepSafe(c: Crypto, s: StoreState, plan: GCPlan, now: int, remains: map<RunKey, RunDir>)
    requires plan.planDigest !in s.executions && plan.planDigest in s.plans && s.plans[plan.planDigest] == plan
    requires PlanAccepted(c, s, plan)
    ensures var script := SweepScript(c, s, plan, now, remains);
      && AllSafe(c, s, script.steps)
      && (script.result.Ok? ==>
            ApplyAll(s, script.steps) == StoreState(
              s.active - Keys(plan.candidates), s.trash - {plan.planDigest}, s.blobs - Elements(plan.blobDigests),
              s.plans, s.executions[plan.planDigest := ExecutionOf(plan, now)]))
  {
    var moves := MoveScript(s, plan.planDigest, plan.candidates);
    var drops := DropScript(c, ApplyAll(s, moves.steps), plan.blobDigests);
    ClearSafe(c, s, plan, moves, drops);
    SweepShape(c, s, plan, now, remains, moves, drops);
    if moves.result.Ok? && drops.result.Ok? {
      var cleared := moves.steps + drops.steps;
      var end := [PutExecution(ExecutionOf(plan, now))] + PurgeSteps(plan.planDigest, remains);
      ClearedEnd(c, s, plan, ApplyAll(s, cleared), now, remains);
      AllSafeConcat(c, s, cleared, end);
      ApplyAllSplit(s, cleared, end);
    }
  }

  lemma ExecuteSafe(c: Crypto, s: StoreState, expected: string, now: int, remains: map<RunKey, RunDir>)
    ensures AllSafe(c, s, ExecuteScript(c, s, expected, now, remains).steps)
  {
    if ValidDigest(expected) && now != 0 {
      if expected in s.executions {
        PurgeSafe(c, s, expected, remains);
      } else if expected in s.plans && PlanIntact(c, s.plans[expected], expected) && PlanAccepted(c, s, s.plans[expected]) {
        SweepSafe(c, s, s.plans[expected], now, remains);
      }
    }
  }

  // ----- Every reachable state -----

  lemma OperationSafe(c: Crypto, s: StoreState, op: Operation)
    requires StoreOK(c, s) && Admissible(c, s, op)
    ensures AllSafe(c, s, Writes(c, s, op))
  {
    match op
    case Begin(r) => BeginSafe(c, s, r);
    case Command(key, actions) =>
      if LoadRun(c, s, key).Ok? {
        LoadRunMakesLoadable(c, s, key);
        ActionsSafe(c, s, key, actions);
      }
    case Recover(key, expected, now, eventTime) => RecoverSafe(c, s, key, expected, now, eventTime);
    case Archive(r) => ArchiveSafe(c, s, r);
    case Plan(repository, days, asOf) => PlanSafe(c, s, repository, days, asOf);
    case Execute(planDigest, now, remains) => ExecuteSafe(c, s, planDigest, now, remains);
  }

  /** From a good store, any sequence of operations crashing anywhere reaches a good store. */
  lemma {:induction false} ReplayKeepsStoreOK(c: Crypto, s: StoreState, history: seq<Attempt>)
    requires StoreOK(c, s) && AdmissibleHistory(c, s, history)
    ensures StoreOK(c, Replay(c, s, history))
    decreases |history|
  {
    if history != [] {
      OperationSafe(c, s, history[0].op);
      SafeScriptKeepsStoreOK(c, s, Writes(c, s, history[0].op), history[0].writes);
      ReplayKeepsStoreOK(c, After(c, s, history[0]), history[1..]);
    }
  }
}
