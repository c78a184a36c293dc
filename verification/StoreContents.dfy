/**
 What the files of the store hold after its operations, member by member: a started run's snapshot
 and blobs and how long they stay, archive records, plans and execution records.
 */
module StoreContents {
  import opened Common
  import opened Digests
  import opened Text
  import opened Journal
  import opened RunStore
  import opened StoreSafety
  import opened StoreOperations
  import opened StoreTheorems
  import opened GCInterleaving

  // ----- A run that has been started -----

  /** The snapshot names, for every captured entry, the digest of the file as it is and of the file as it was. */
  ghost predicate SealsCapture(seal: Seal, r: BeginRequest)
  {
    && seal.snapshotID == r.snapshotID && seal.evidence == r.evidence && |seal.entries| == |r.captured|
    && forall i :: 0 <= i < |r.captured| ==>
         seal.entries[i].current == r.captured[i].current && seal.entries[i].previous == r.captured[i].previous
  }

  /** The run is new, and its journal begins with the event that binds it to its snapshot and data class. */
  ghost predicate StartsRun(c: Crypto, d: RunDir, r: BeginRequest)
  {
    && d.archive.None? && d.contents.seal.Some? && SealsCapture(d.contents.seal.value, r)
    && d.contents.run == Some(Run(r.key.run, r.key.repository, r.snapshotID, r.dataClass, "PREPARED", r.now, r.now))
    && d.contents.files == map["inventory.json" := r.inventory]
    && d.contents.journal.Some? && |d.contents.journal.value| == 1
    && var body := d.contents.journal.value[0].body;
    && d.contents.journal.value[0].hash == c.event(body)
    && body.sequence == 1 && body.previousHash == "" && body.recordedAt == r.eventTime && body.kind == "run_prepared"
    && body.payload == map["snapshot_id" := Text(r.snapshotID), "data_class" := Text(r.dataClass)]
  }

  lemma CompletedSteps(c: Crypto, s: StoreState, r: BeginRequest) returns (t: StoreState)
    requires r.key !in s.active && !InTrash(s, r.key) && BeginScript(c, s, r).result.Ok?
    ensures t.active == s.active[r.key := DirAfterHead(r)]
    ensures ApplyAll(s, BeginScript(c, s, r).steps) == Apply(t, AppendLine(r.key, NextEvent(c.event, [], "run_prepared", PreparedPayload(r), r.eventTime)))
  {
    var head, s1 := BeginHead(r), ApplyAll(s, BeginHead(r));
    BeginHeadSafe(c, s, r);
    var blobs := EntriesScript(c, s1, r.captured);
    EntriesScriptSafe(c, s1, r.captured);
    t := ApplyAll(s1, blobs.steps);
    var line := AppendLine(r.key, NextEvent(c.event, [], "run_prepared", PreparedPayload(r), r.eventTime));
    ApplyAllSplit(s, head, blobs.steps);
    ApplyAllSplit(s, head + blobs.steps, [line]);
    assert [line][1..] == [];
  }

  /** What a completed start of a run leaves in its directory. */
  lemma BegunRun(c: Crypto, s: StoreState, r: BeginRequest)
    requires r.key !in s.active && !InTrash(s, r.key) && BeginScript(c, s, r).result.Ok?
    ensures var t := ApplyAll(s, BeginScript(c, s, r).steps); r.key in t.active && StartsRun(c, t.active[r.key], r)
    ensures r.dataClass in ["public_synthetic", "public_project", "private_project"]
    ensures BeginScript(c, s, r).result == Ok(Run(r.key.run, r.key.repository, r.snapshotID, r.dataClass, "PREPARED", r.now, r.now))
  {
    var t := CompletedSteps(c, s, r);
    assert [] + [NextEvent(c.event, [], "run_prepared", PreparedPayload(r), r.eventTime)]
      == [NextEvent(c.event, [], "run_prepared", PreparedPayload(r), r.eventTime)];
  }

  /** The capture brought the content that this digest names, if it names one. */
  predicate Brought(c: Crypto, digest: string, content: string)
  {
    digest != "" ==> ValidDigest(digest) && c.bytes(content) == digest
  }

  lemma EntryCaptures(c: Crypto, s: StoreState, entry: CapturedEntry)
    ensures EntryScript(c, s, entry).result.Ok? <==>
      Brought(c, entry.current, entry.currentContent) && Brought(c, entry.previous, entry.previousContent)
  {
  }

  lemma {:induction false} CapturesExactly(c: Crypto, s: StoreState, captured: seq<CapturedEntry>)
    ensures EntriesScript(c, s, captured).result.Ok? <==> forall i :: 0 <= i < |captured| ==>
      Brought(c, captured[i].current, captured[i].currentContent) && Brought(c, captured[i].previous, captured[i].previousContent)
    decreases |captured|
  {
    if captured != [] {
      var first, rest := EntryScript(c, s, captured[0]), captured[1..];
      CapturesExactly(c, ApplyAll(s, first.steps), rest);
      EntryCaptures(c, s, captured[0]);
      assert captured == [captured[0]] + rest;
    }
  }

  /** A new run starts exactly for a known data class and a capture that brought what its digests name. */
  lemma BeginsExactly(c: Crypto, s: StoreState, r: BeginRequest)
    requires r.key !in s.active && !InTrash(s, r.key)
    ensures BeginScript(c, s, r).result.Ok? <==>
      && r.dataClass in ["public_synthetic", "public_project", "private_project"]
      && forall i :: 0 <= i < |r.captured| ==>
           Brought(c, r.captured[i].current, r.captured[i].currentContent) && Brought(c, r.captured[i].previous, r.captured[i].previousContent)
  {
    var s1 := ApplyAll(s, BeginHead(r));
    BeginHeadSafe(c, s, r);
    EntriesScriptSafe(c, s1, r.captured);
    CapturesExactly(c, s1, r.captured);
  }

  // ----- As long as the run is there -----

  /** The run is in its place, journaled, with this snapshot. */
  ghost predicate InPlace(s: StoreState, key: RunKey, seal: Seal)
  {
    key in s.active && s.active[key].contents.journal.Some? && s.active[key].contents.seal == Some(seal)
  }

  /** A collection has taken the run: it is in the trash of a plan, or the execution of one that names it is recorded. */
  ghost predicate Taken(s: StoreState, key: RunKey)
  {
    InTrash(s, key) || Collected(s, key)
  }

  predicate NoSnapshotOf(steps: seq<FileStep>, key: RunKey)
  {
    forall i :: 0 <= i < |steps| ==> !(steps[i].PutSeal? && steps[i].key == key)
  }

  lemma InPlaceStep(c: Crypto, s: StoreState, step: FileStep, key: RunKey, seal: Seal)
    requires SafeStep(c, s, step) && InPlace(s, key, seal) && !(step.PutSeal? && step.key == key)
    ensures InPlace(Apply(s, step), key, seal) || Taken(Apply(s, step), key)
  {
    if step.MoveRun? && step.key == key {
      var t := Apply(s, step);
      assert step.planDigest in t.trash && key in t.trash[step.planDigest];
    }
  }

  /** What is in a trash stays there until the execution of its plan is recorded. */
  lemma TrashedStep(c: Crypto, s: StoreState, step: FileStep, p: string, key: RunKey)
    requires SafeStep(c, s, step) && p in s.trash && key in s.trash[p] && p !in s.executions
    ensures InTrash(Apply(s, step), key)
  {
    var t := Apply(s, step);
    assert p in t.trash && key in t.trash[p];
  }

  lemma TakenStep(c: Crypto, s: StoreState, step: FileStep, key: RunKey)
    requires StoreOK(c, s) && SafeStep(c, s, step) && Taken(s, key)
    ensures Taken(Apply(s, step), key)
  {
    PlansOnlyGrow(c, s, step);
    if Collected(s, key) {
      CollectedStays(s, Apply(s, step), key);
    } else {
      var p :| p in s.trash && key in s.trash[p];
      assert TrashEntryOK(c, s, p, key, s.trash[p][key]);
      TrashedStep(c, s, step, p, key);
    }
  }

  lemma {:induction false} InPlacePrefix(c: Crypto, s: StoreState, steps: seq<FileStep>, n: nat, key: RunKey, seal: Seal)
    requires StoreOK(c, s) && AllSafe(c, s, steps)
    requires Taken(s, key) || (InPlace(s, key, seal) && NoSnapshotOf(steps, key))
    ensures var t := ApplyAll(s, Prefix(steps, n)); InPlace(t, key, seal) || Taken(t, key)
    decreases |steps|
  {
    if steps != [] && n > 0 {
      if Taken(s, key) {
        TakenStep(c, s, steps[0], key);
      } else {
        InPlaceStep(c, s, steps[0], key, seal);
      }
      SafeStepKeepsStoreOK(c, s, steps[0]);
      InPlacePrefix(c, Apply(s, steps[0]), steps[1..], n - 1, key, seal);
      PrefixRest(steps, n);
    }
  }

  lemma WritesNoSnapshotOf(c: Crypto, s: StoreState, op: Operation, key: RunKey)
    requires StoreOK(c, s) && Admissible(c, s, op) && key in s.active
    ensures NoSnapshotOf(Writes(c, s, op), key)
  {
    OperationTouches(c, s, op);
  }

  lemma {:induction false} InPlaceHistory(c: Crypto, s: StoreState, history: seq<Attempt>, key: RunKey, seal: Seal)
    requires StoreOK(c, s) && AdmissibleHistory(c, s, history) && (InPlace(s, key, seal) || Taken(s, key))
    ensures var t := Replay(c, s, history); StoreOK(c, t) && (InPlace(t, key, seal) || Taken(t, key))
    decreases |history|
  {
    if history != [] {
      var steps := Writes(c, s, history[0].op);
      OperationSafe(c, s, history[0].op);
      SafeScriptKeepsStoreOK(c, s, steps, history[0].writes);
      if !Taken(s, key) {
        WritesNoSnapshotOf(c, s, history[0].op, key);
      }
      InPlacePrefix(c, s, steps, history[0].writes, key, seal);
      InPlaceHistory(c, After(c, s, history[0]), history[1..], key, seal);
    }
  }

  /** The blob is stored with the content that it names. */
  ghost predicate Kept(c: Crypto, s: StoreState, digest: string)
  {
    digest != "" ==> digest in s.blobs && c.bytes(s.blobs[digest]) == digest
  }

  lemma SnapshotBlobs(c: Crypto, s: StoreState, key: RunKey, seal: Seal, r: BeginRequest)
    requires StoreOK(c, s) && InPlace(s, key, seal) && SealsCapture(seal, r)
    ensures forall i :: 0 <= i < |r.captured| ==> Kept(c, s, r.captured[i].current) && Kept(c, s, r.captured[i].previous)
  {
    assert RunOK(c, s.blobs.Keys, key, s.active[key]);
    forall i | 0 <= i < |r.captured| ensures Kept(c, s, r.captured[i].current) && Kept(c, s, r.captured[i].previous) {
      assert seal.entries[i].current in DigestsOf(seal) && seal.entries[i].previous in DigestsOf(seal);
    }
  }

  /**
   After a run has been started and whatever happens later: it is in its place with its snapshot, and
   then every file it captured, as it is and as it was, is stored intact; or a collection has taken it.
   */
  lemma CapturedBlobsStay(c: Crypto, s: StoreState, r: BeginRequest, history: seq<Attempt>)
    requires StoreOK(c, s) && Admissible(c, s, Begin(r)) && BeginScript(c, s, r).result.Ok?
    requires AdmissibleHistory(c, ApplyAll(s, BeginScript(c, s, r).steps), history)
    ensures var t := ApplyAll(s, BeginScript(c, s, r).steps);
      && r.key in t.active && t.active[r.key].contents.seal.Some? && SealsCapture(t.active[r.key].contents.seal.value, r)
      && var u, seal := Replay(c, t, history), t.active[r.key].contents.seal.value;
         && (InPlace(u, r.key, seal) || Taken(u, r.key))
         && (InPlace(u, r.key, seal) ==>
               forall i :: 0 <= i < |r.captured| ==> Kept(c, u, r.captured[i].current) && Kept(c, u, r.captured[i].previous))
  {
    var steps := BeginScript(c, s, r).steps;
    var t := ApplyAll(s, steps);
    BegunRun(c, s, r);
    BeginSafe(c, s, r);
    SafeScriptKeepsStoreOK(c, s, steps, |steps|);
    assert Prefix(steps, |steps|) == steps;
    var seal := t.active[r.key].contents.seal.value;
    InPlaceHistory(c, t, history, r.key, seal);
    if InPlace(Replay(c, t, history), r.key, seal) {
      SnapshotBlobs(c, Replay(c, t, history), r.key, seal, r);
    }
  }

  // ----- Loading, updating and recovering -----

  /** The journal is linked from its first event on and derives this state for the run. */
  ghost predicate JournalAt(c: Crypto, d: RunDir, run: Run, state: string)
  {
    && d.contents.journal.Some? && ChainValid(c.event, d.contents.journal.value)
    && JournalState(d.contents.journal.value, run.snapshotID, run.dataClass) == Some(state)
  }

  /** A run loads exactly when it is not archived, has its three files, and they agree on state, snapshot and data class. */
  lemma LoadsExactly(c: Crypto, s: StoreState, key: RunKey)
    ensures LoadRun(c, s, key).Ok? <==>
      && key in s.active && s.active[key].archive.None? && s.active[key].contents.run.Some? && s.active[key].contents.seal.Some?
      && var run := s.active[key].contents.run.value;
      && JournalAt(c, s.active[key], run, run.state) && run.snapshotID == s.active[key].contents.seal.value.snapshotID
      && run.dataClass in ["public_synthetic", "public_project", "private_project"]
    ensures LoadRun(c, s, key).Ok? ==> LoadRun(c, s, key).value == (s.active[key].contents.run.value, s.active[key].contents.seal.value)
  {
  }

  /** An event as it follows a journal. */
  ghost predicate Follows(c: Crypto, journal: seq<Event>, event: Event, kind: string, payload: Payload, recordedAt: int)
  {
    && event.hash == c.event(event.body) && event.body.kind == kind && event.body.payload == payload && event.body.recordedAt == recordedAt
    && event.body.sequence == (if journal == [] then 1 else journal[|journal| - 1].body.sequence + 1)
    && event.body.previousHash == if journal == [] then "" else journal[|journal| - 1].hash
  }

  /** The files of the directory, but for the run and one more event. */
  ghost predicate OneMoreEvent(before: RunDir, after: RunDir, run: Run, event: Event)
  {
    && after.contents.run == Some(run) && after.contents.journal == Some(JournalOf(before) + [event])
    && after.contents.seal == before.contents.seal && after.contents.files == before.contents.files && after.archive == before.archive
  }

  lemma TwoSteps(s: StoreState, key: RunKey, a: FileStep, b: FileStep)
    requires IsDirStep(a) && IsDirStep(b) && a.key == key && b.key == key
    ensures ApplyAll(s, [a, b]) == s.(active := s.active[key := ApplyToDir(ApplyToDir(Dir(s, key), a), b)])
  {
    assert [a, b][1..] == [b] && [b][1..] == [];
    var t := Apply(s, a);
    assert ApplyAll(t, [b]) == Apply(t, b);
    assert t.active[key := ApplyToDir(Dir(t, key), b)] == s.active[key := ApplyToDir(ApplyToDir(Dir(s, key), a), b)];
  }

  /** An update that is allowed moves `run.json` to the next state and appends the event that says so, and changes nothing else. */
  lemma UpdatedRun(c: Crypto, s: StoreState, key: RunKey, next: string, eventTime: int, now: int) returns (event: Event)
    requires UpdateScript(c, s, key, next, eventTime, now).result.Ok?
    ensures key in s.active && s.active[key].archive.None? && s.active[key].contents.run.Some?
    ensures var run := s.active[key].contents.run.value;
      var script := UpdateScript(c, s, key, next, eventTime, now);
      var t := ApplyAll(s, script.steps);
      && AllowedTransition(run.state, next)
      && Follows(c, JournalOf(s.active[key]), event, "state_transition", map["from" := Text(run.state), "to" := Text(next)], eventTime)
      && script.result.value == Run(run.id, run.repository, run.snapshotID, run.dataClass, next, run.createdAt, now)
      && key in t.active && OneMoreEvent(s.active[key], t.active[key], script.result.value, event)
      && t == s.(active := s.active[key := t.active[key]])
  {
    var steps := UpdateScript(c, s, key, next, eventTime, now).steps;
    event := steps[0].event;
    assert steps == [steps[0], steps[1]];
    TwoSteps(s, key, steps[0], steps[1]);
  }

  /** An action that is done on a run: the event or the transition it asks for, or one file written or removed, and nothing else. */
  ghost predicate Done(c: Crypto, before: RunDir, after: RunDir, action: Action)
  {
    match action
    case Record(kind, payload, now) =>
      && after.contents == before.contents.(journal := after.contents.journal) && after.archive == before.archive
      && exists event :: Follows(c, JournalOf(before), event, kind, payload, now) && after.contents.journal == Some(JournalOf(before) + [event])
    case MoveTo(next, eventTime, now) =>
      && before.contents.run.Some? && AllowedTransition(before.contents.run.value.state, next)
      && exists event :: OneMoreEvent(before, after, before.contents.run.value.(state := next, updatedAt := now), event)
           && Follows(c, JournalOf(before), event, "state_transition",
                      map["from" := Text(before.contents.run.value.state), "to" := Text(next)], eventTime)
    case Write(path, content) => after == before.(contents := before.contents.(files := before.contents.files[path := content]))
    case Remove(path) =>
      path in before.contents.files && after == before.(contents := before.contents.(files := before.contents.files - {path}))
  }

  /** An action can be done. */
  predicate Doable(d: RunDir, action: Action)
  {
    && d.archive.None?
    && (action.MoveTo? ==> d.contents.run.Some? && AllowedTransition(d.contents.run.value.state, action.next))
    && (action.Remove? ==> action.path in d.contents.files)
  }

  lemma OneStep(s: StoreState, key: RunKey, a: FileStep)
    requires IsDirStep(a) && a.key == key
    ensures ApplyAll(s, [a]) == s.(active := s.active[key := ApplyToDir(Dir(s, key), a)])
  {
    assert [a][1..] == [];
    assert ApplyAll(s, [a]) == Apply(s, a);
  }

  lemma RecordsOrWrites(c: Crypto, s: StoreState, key: RunKey, action: Action)
    requires key in s.active && !action.MoveTo? && ActionScript(c, s, key, action).result.Ok?
    ensures Doable(s.active[key], action)
    ensures var steps := ActionScript(c, s, key, action).steps;
      && |steps| == 1 && IsDirStep(steps[0]) && steps[0].key == key
      && Done(c, s.active[key], ApplyToDir(s.active[key], steps[0]), action)
  {
    if action.Record? {
      var event := ActionScript(c, s, key, action).steps[0].event;
      assert Follows(c, JournalOf(s.active[key]), event, action.kind, action.payload, action.now);
    }
  }

  lemma SucceedsExactly(c: Crypto, s: StoreState, key: RunKey, action: Action)
    requires key in s.active
    ensures var script := ActionScript(c, s, key, action);
      (script.result.Ok? <==> Doable(s.active[key], action)) && (script.result.Err? ==> script.steps == [])
  {
  }

  lemma MovesRun(c: Crypto, s: StoreState, key: RunKey, action: Action)
    requires key in s.active && action.MoveTo? && ActionScript(c, s, key, action).result.Ok?
    ensures var t := ApplyAll(s, ActionScript(c, s, key, action).steps);
      key in t.active && t == s.(active := s.active[key := t.active[key]]) && Done(c, s.active[key], t.active[key], action)
  {
    var event := UpdatedRun(c, s, key, action.next, action.eventTime, action.now);
  }

  lemma ActsExactly(c: Crypto, s: StoreState, key: RunKey, action: Action)
    requires key in s.active
    ensures var script := ActionScript(c, s, key, action);
      var t := ApplyAll(s, script.steps);
      && (script.result.Ok? <==> Doable(s.active[key], action))
      && (script.result.Err? ==> t == s)
      && (script.result.Ok? ==>
            key in t.active && t == s.(active := s.active[key := t.active[key]]) && Done(c, s.active[key], t.active[key], action))
  {
    var script := ActionScript(c, s, key, action);
    SucceedsExactly(c, s, key, action);
    if script.result.Ok? {
      if action.MoveTo? {
        MovesRun(c, s, key, action);
      } else {
        RecordsOrWrites(c, s, key, action);
        OneStep(s, key, script.steps[0]);
        assert script.steps == [script.steps[0]];
      }
    }
  }

  /** The directory after each action in turn. */
  ghost predicate DoneInTurn(c: Crypto, dirs: seq<RunDir>, actions: seq<Action>)
  {
    && |dirs| == |actions| + 1
    && forall i :: 0 <= i < |actions| ==> Doable(dirs[i], actions[i]) && Done(c, dirs[i], dirs[i + 1], actions[i])
  }

  lemma FirstThenRest(c: Crypto, s: StoreState, key: RunKey, actions: seq<Action>) returns (t: StoreState)
    requires key in s.active && actions != [] && ActionsScript(c, s, key, actions).result.Ok?
    ensures ActionScript(c, s, key, actions[0]).result.Ok? && t == ApplyAll(s, ActionScript(c, s, key, actions[0]).steps)
    ensures ActionsScript(c, t, key, actions[1..]).result.Ok?
    ensures ApplyAll(s, ActionsScript(c, s, key, actions).steps) == ApplyAll(t, ActionsScript(c, t, key, actions[1..]).steps)
  {
    var first := ActionScript(c, s, key, actions[0]);
    t := ApplyAll(s, first.steps);
    ApplyAllSplit(s, first.steps, ActionsScript(c, t, key, actions[1..]).steps);
  }

  lemma LaterUpdate(s: StoreState, t: StoreState, u: StoreState, key: RunKey, first: RunDir, second: RunDir)
    requires t == s.(active := s.active[key := first]) && u == t.(active := t.active[key := second])
    ensures u == s.(active := s.active[key := second])
  {
  }

  /** Actions that all succeed are done one after the other, on this run alone. */
  lemma {:induction false} ActedRun(c: Crypto, s: StoreState, key: RunKey, actions: seq<Action>) returns (dirs: seq<RunDir>)
    requires key in s.active && ActionsScript(c, s, key, actions).result.Ok?
    ensures DoneInTurn(c, dirs, actions) && dirs[0] == s.active[key]
    ensures ApplyAll(s, ActionsScript(c, s, key, actions).steps) == s.(active := s.active[key := dirs[|actions|]])
    decreases |actions|
  {
    if actions == [] {
      dirs := [s.active[key]];
      assert s.active[key := s.active[key]] == s.active;
    } else {
      ActsExactly(c, s, key, actions[0]);
      var t := FirstThenRest(c, s, key, actions);
      var rest := ActedRun(c, t, key, actions[1..]);
      dirs := [s.active[key]] + rest;
      LaterUpdate(s, t, ApplyAll(s, ActionsScript(c, s, key, actions).steps), key, t.active[key], rest[|actions| - 1]);
      OneMoreDone(c, s.active[key], rest, actions);
    }
  }

  lemma OneMoreDone(c: Crypto, d: RunDir, rest: seq<RunDir>, actions: seq<Action>)
    requires actions != [] && DoneInTurn(c, rest, actions[1..])
    requires Doable(d, actions[0]) && Done(c, d, rest[0], actions[0])
    ensures DoneInTurn(c, [d] + rest, actions)
  {
    var dirs := [d] + rest;
    forall i | 0 <= i < |actions| ensures Doable(dirs[i], actions[i]) && Done(c, dirs[i], dirs[i + 1], actions[i]) {
      if i > 0 { assert actions[i] == actions[1..][i - 1]; }
    }
  }

  /** A command that succeeds found its run loadable, and did its actions in turn. */
  lemma CommandedRun(c: Crypto, s: StoreState, key: RunKey, actions: seq<Action>) returns (dirs: seq<RunDir>)
    requires CommandScript(c, s, key, actions).result.Ok?
    ensures LoadRun(c, s, key).Ok? && key in s.active && DoneInTurn(c, dirs, actions) && dirs[0] == s.active[key]
    ensures ApplyAll(s, CommandScript(c, s, key, actions).steps) == s.(active := s.active[key := dirs[|actions|]])
  {
    LoadsExactly(c, s, key);
    dirs := ActedRun(c, s, key, actions);
  }

  /** A run may be recovered: its files are there and agree, and its journal derives this state. */
  ghost predicate Recoverable(c: Crypto, s: StoreState, key: RunKey, state: string)
  {
    && ValidKey(key) && key in s.active && s.active[key].contents.run.Some? && s.active[key].contents.seal.Some?
    && s.active[key].contents.run.value.snapshotID == s.active[key].contents.seal.value.snapshotID
    && JournalAt(c, s.active[key], s.active[key].contents.run.value, state)
  }

  /** Recovery succeeds exactly on such a run, when its state agrees already or the caller echoes the derived one, unless it is archived. */
  lemma RecoversExactly(c: Crypto, s: StoreState, key: RunKey, expected: string, now: int, eventTime: int)
    ensures RecoverScript(c, s, key, expected, now, eventTime).result.Ok? <==>
      exists state :: Recoverable(c, s, key, state) &&
        (s.active[key].contents.run.value.state == state || (expected == state != "" && s.active[key].archive.None?))
  {
    if key in s.active && s.active[key].contents.run.Some? {
      var run := s.active[key].contents.run.value;
      var derived := JournalState(JournalOf(s.active[key]), run.snapshotID, run.dataClass);
      if derived.Some? && s.active[key].contents.journal.Some? && Recoverable(c, s, key, derived.value) {
        assert JournalAt(c, s.active[key], run, derived.value);
      }
    }
  }

  /** A recovery that changes something moves `run.json` to the journal's state and notes both states in an event. */
  lemma RecoveredRun(c: Crypto, s: StoreState, key: RunKey, expected: string, now: int, eventTime: int) returns (event: Event)
    requires Recoverable(c, s, key, expected) && expected != "" && s.active[key].archive.None?
    requires s.active[key].contents.run.value.state != expected
    ensures var run := s.active[key].contents.run.value;
      var script := RecoverScript(c, s, key, expected, now, eventTime);
      var t := ApplyAll(s, script.steps);
      && script.result == Ok(Run(run.id, run.repository, run.snapshotID, run.dataClass, expected, run.createdAt, now))
      && Follows(c, JournalOf(s.active[key]), event, "run_recovered",
                 map["persisted_state" := Text(run.state), "journal_state" := Text(expected)], eventTime)
      && key in t.active && OneMoreEvent(s.active[key], t.active[key], script.result.value, event)
      && t == s.(active := s.active[key := t.active[key]])
  {
    var steps := RecoverScript(c, s, key, expected, now, eventTime).steps;
    event := steps[1].event;
    assert steps == [steps[0], steps[1]];
    TwoSteps(s, key, steps[0], steps[1]);
  }

  // ----- Archiving -----

  /** The run is finished and its journal agrees. */
  ghost predicate Finished(c: Crypto, s: StoreState, key: RunKey)
  {
    && key in s.active && s.active[key].archive.None? && s.active[key].contents.run.Some?
    && var run := s.active[key].contents.run.value;
    && run.id == key.run && run.repository == key.repository
    && run.state in ["FINALIZED", "EXPORTED", "BLOCKED"] && JournalAt(c, s.active[key], run, run.state)
  }

  /** The last event archives the run with these facts. */
  ghost predicate SaysArchived(event: Event, pinned: bool, reason: string, state: string)
  {
    && event.body.kind == "run_archived"
    && (if "pinned" in event.body.payload then event.body.payload["pinned"] == Flag(pinned) else !pinned)
    && (if "reason" in event.body.payload then event.body.payload["reason"] == Text(reason) else reason == "")
    && (if "state" in event.body.payload then event.body.payload["state"] == Text(state) else state == "")
  }

  /** Archiving succeeds exactly for a finished run, a reason and a time, when no other archive event is last. */
  lemma ArchivesExactly(c: Crypto, s: StoreState, r: ArchiveRequest)
    ensures ArchiveScript(c, s, r).result.Ok? <==>
      && ValidKey(r.key) && TrimSpace(r.reason) != "" && r.now != 0 && Finished(c, s, r.key)
      && var d := s.active[r.key];
         var last := JournalOf(d)[|JournalOf(d)| - 1];
         last.body.kind == "run_archived" ==> SaysArchived(last, r.pinned, TrimSpace(r.reason), d.contents.run.value.state)
  {
    if Finished(c, s, r.key) {
      var d := s.active[r.key];
      FactsDecoded(JournalOf(d)[|JournalOf(d)| - 1], r.pinned, TrimSpace(r.reason), d.contents.run.value.state);
    }
  }

  lemma FactsDecoded(event: Event, pinned: bool, reason: string, state: string)
    ensures event.body.kind == "run_archived" && DecodeFacts(event.body.payload) == Some(ArchiveFacts(pinned, reason, state)) <==>
      SaysArchived(event, pinned, reason, state)
  {
  }

  /** The record covers the files beside it and the last event, and repeats the facts. */
  ghost predicate RecordsRun(c: Crypto, key: RunKey, d: RunDir, record: ArchiveRecord, pinned: bool, reason: string)
  {
    && d.archive == Some(record) && d.contents.run.Some? && JournalOf(d) != []
    && var last := JournalOf(d)[|JournalOf(d)| - 1];
    && SaysArchived(last, pinned, reason, d.contents.run.value.state)
    && record.repository == key.repository && record.run == key.run && record.runState == d.contents.run.value.state
    && record.archivedAt == last.body.recordedAt && record.lastEventHash == last.hash
    && record.pinned == pinned && record.reason == reason && record.contentDigest == c.contents(d.contents)
    && record.recordDigest == c.record(record.(recordDigest := ""))
  }

  /** The directory after archiving. */
  ghost predicate ArchivedFrom(c: Crypto, s: StoreState, r: ArchiveRequest, t: StoreState, record: ArchiveRecord)
  {
    && r.key in s.active && r.key in t.active && t == s.(active := s.active[r.key := t.active[r.key]])
    && t.active[r.key].contents == s.active[r.key].contents.(journal := t.active[r.key].contents.journal)
    && RecordsRun(c, r.key, t.active[r.key], record, r.pinned, TrimSpace(r.reason))
  }

  lemma ArchivedByRecord(c: Crypto, s: StoreState, r: ArchiveRequest, last: Event)
    requires ArchiveScript(c, s, r).result.Ok? && last == JournalOf(s.active[r.key])[|JournalOf(s.active[r.key])| - 1]
    requires last.body.kind == "run_archived"
    ensures var script := ArchiveScript(c, s, r); ArchivedFrom(c, s, r, ApplyAll(s, script.steps), script.result.value)
  {
    var script := ArchiveScript(c, s, r);
    assert script.steps == [PutArchive(r.key, script.result.value)] && [script.steps[0]][1..] == [];
    assert ApplyAll(s, script.steps) == Apply(s, script.steps[0]);
    FactsDecoded(last, r.pinned, TrimSpace(r.reason), s.active[r.key].contents.run.value.state);
  }

  lemma ArchivedDir(c: Crypto, d: RunDir, r: ArchiveRequest, state: string, event: Event, record: ArchiveRecord)
    requires d.contents.run.Some? && d.contents.run.value.state == state
    requires event.body.kind == "run_archived" && event.body.payload == EncodeFacts(ArchiveFacts(r.pinned, TrimSpace(r.reason), state))
    requires record == SealedRecord(c, r, state, event, ApplyToDir(d, AppendLine(r.key, event)).contents)
    ensures var e := ApplyToDir(ApplyToDir(d, AppendLine(r.key, event)), PutArchive(r.key, record));
      e.contents == d.contents.(journal := e.contents.journal) && RecordsRun(c, r.key, e, record, r.pinned, TrimSpace(r.reason))
  {
    FactsDecoded(event, r.pinned, TrimSpace(r.reason), state);
  }

  lemma ArchivedByBoth(c: Crypto, s: StoreState, r: ArchiveRequest)
    requires ArchiveScript(c, s, r).result.Ok?
    requires JournalOf(s.active[r.key])[|JournalOf(s.active[r.key])| - 1].body.kind != "run_archived"
    ensures var script := ArchiveScript(c, s, r); ArchivedFrom(c, s, r, ApplyAll(s, script.steps), script.result.value)
  {
    var script := ArchiveScript(c, s, r);
    assert script.steps == [script.steps[0], script.steps[1]];
    TwoSteps(s, r.key, script.steps[0], script.steps[1]);
    ArchivedDir(c, s.active[r.key], r, s.active[r.key].contents.run.value.state, script.steps[0].event, script.result.value);
  }

  /** What successful archiving leaves, whether it wrote the event or found it. */
  lemma ArchivedRun(c: Crypto, s: StoreState, r: ArchiveRequest)
    requires ArchiveScript(c, s, r).result.Ok?
    ensures var script := ArchiveScript(c, s, r); ArchivedFrom(c, s, r, ApplyAll(s, script.steps), script.result.value)
  {
    var last := JournalOf(s.active[r.key])[|JournalOf(s.active[r.key])| - 1];
    if last.body.kind == "run_archived" {
      ArchivedByRecord(c, s, r, last);
    } else {
      ArchivedByBoth(c, s, r);
    }
  }
}
