/**
 Histories that reach the states where the store falls short: an update without its guard after
 a crash, a recovery in the middle of a collection, and a retention interval that overflows.
 */
module StoreWitnesses {
  import opened Common
  import opened Digests
  import opened Text
  import opened Journal
  import opened RunStore
  import opened StoreSafety
  import opened StoreOperations
  import opened StoreTheorems
  import opened StrayDirectories
  import opened GCResume
  import opened GCInterleaving

  // ----- Longer histories -----

  /** The history is possible from the empty store and leads to `s`. */
  ghost predicate Reaches(c: Crypto, history: seq<Attempt>, s: StoreState)
  {
    AdmissibleHistory(c, EmptyStore, history) && Replay(c, EmptyStore, history) == s
  }

  lemma {:induction false} ReplayMore(c: Crypto, s: StoreState, history: seq<Attempt>, a: Attempt)
    requires AdmissibleHistory(c, s, history) && Admissible(c, Replay(c, s, history), a.op)
    ensures AdmissibleHistory(c, s, history + [a])
    ensures Replay(c, s, history + [a]) == After(c, Replay(c, s, history), a)
    decreases |history|
  {
    if history == [] {
      assert [] + [a] == [a] && [a][1..] == [];
    } else {
      assert (history + [a])[1..] == history[1..] + [a];
      ReplayMore(c, After(c, s, history[0]), history[1..], a);
    }
  }

  lemma ReachesMore(c: Crypto, history: seq<Attempt>, s: StoreState, a: Attempt)
    requires Reaches(c, history, s) && StoreOK(c, s) && Admissible(c, s, a.op)
    ensures Reaches(c, history + [a], After(c, s, a)) && StoreOK(c, After(c, s, a))
  {
    ReplayMore(c, EmptyStore, history, a);
    OperationSafe(c, s, a.op);
    SafeScriptKeepsStoreOK(c, s, Writes(c, s, a.op), a.writes);
  }

  // ----- A run in a store of its own -----

  const Letter: string := "x"

  /** The store that holds nothing but one blob. */
  function OneBlob(c: Crypto): StoreState
  {
    EmptyStore.(blobs := map[c.bytes(Letter) := Letter])
  }

  /** The only run in the store is this one, and it references the only blob. */
  predicate OnlyRun(c: Crypto, s: StoreState, key: RunKey)
  {
    key in s.active && s == OneBlob(c).(active := map[key := s.active[key]]) && c.bytes(Letter) in DirReferences(s.active[key])
  }

  /** The only thing in the store is this run and its blob, up to date, in this state, without public evidence. */
  ghost predicate Alone(c: Crypto, s: StoreState, key: RunKey, state: string)
  {
    && StoreOK(c, s) && Loadable(c, s, key) && OnlyRun(c, s, key)
    && s.active[key].contents.run.value.state == state
    && s.active[key].contents.files.Keys == {"inventory.json"}
    && var journal := JournalOf(s.active[key]); journal != [] && journal[|journal| - 1].body.kind != "run_archived"
  }

  /** A run over one file. */
  function FirstRequest(c: Crypto, key: RunKey): BeginRequest
  {
    BeginRequest(key, "snap-0", [CapturedEntry(c.bytes(Letter), Letter, "", "")], "", "[]", "private_project", 0, 0)
  }

  function PreparedEvent(c: Crypto, r: BeginRequest): Event
  {
    NextEvent(c.event, [], "run_prepared", PreparedPayload(r), r.eventTime)
  }

  /** The blob is written if it is missing. */
  function Missing(c: Crypto, s: StoreState): seq<FileStep>
  {
    if c.bytes(Letter) in s.blobs then [] else [PutBlob(c.bytes(Letter), Letter)]
  }

  lemma EntriesOfOne(c: Crypto, s: StoreState, key: RunKey)
    ensures EntriesScript(c, s, FirstRequest(c, key).captured) == Script(Missing(c, s), Ok(()))
  {
    var digest: Digest := c.bytes(Letter);
    var captured := FirstRequest(c, key).captured;
    assert ValidDigest(digest) && digest != "";
    assert captured[1..] == [];
    assert EntryScript(c, s, captured[0]) == Script(Missing(c, s), Ok(()));
    assert Missing(c, s) + [] == Missing(c, s);
  }

  /** Files, the missing blob, then the event. */
  lemma BeginWithOneEntry(c: Crypto, s: StoreState, key: RunKey)
    requires key !in s.active && !InTrash(s, key)
    ensures var r := FirstRequest(c, key);
      BeginScript(c, s, r).steps == BeginHead(r) + Missing(c, s) + [AppendLine(key, PreparedEvent(c, r))]
  {
    var r := FirstRequest(c, key);
    BeginHeadSafe(c, s, r);
    var s1 := ApplyAll(s, BeginHead(r));
    EntriesOfOne(c, s1, key);
    MissingApplied(c, s1);
  }

  lemma MissingApplied(c: Crypto, s: StoreState)
    ensures ApplyAll(s, Missing(c, s)) == s.(blobs := s.blobs + if Missing(c, s) == [] then map[] else map[c.bytes(Letter) := Letter])
  {
    var step := PutBlob(c.bytes(Letter), Letter);
    assert [step][1..] == [];
    assert ApplyAll(s, [step]) == Apply(s, step);
    assert s.blobs + map[] == s.blobs;
  }

  function PreparedDir(c: Crypto, r: BeginRequest): RunDir
  {
    var d := DirAfterHead(r);
    d.(contents := d.contents.(journal := Some([PreparedEvent(c, r)])))
  }

  lemma ThreeParts(s: StoreState, a: seq<FileStep>, b: seq<FileStep>, last: FileStep)
    ensures ApplyAll(s, a + b + [last]) == Apply(ApplyAll(ApplyAll(s, a), b), last)
  {
    ApplyAllSplit(s, a, b);
    ApplyAllSplit(s, a + b, [last]);
    assert [last][1..] == [];
  }

  /** What starting such a run leaves. */
  function Prepared(c: Crypto, s: StoreState, key: RunKey): StoreState
  {
    s.(active := s.active[key := PreparedDir(c, FirstRequest(c, key))],
       blobs := s.blobs + if Missing(c, s) == [] then map[] else map[c.bytes(Letter) := Letter])
  }

  lemma EventLast(c: Crypto, s: StoreState, r: BeginRequest)
    requires r.key in s.active && s.active[r.key] == DirAfterHead(r)
    ensures Apply(s, AppendLine(r.key, PreparedEvent(c, r))) == s.(active := s.active[r.key := PreparedDir(c, r)])
  {
    assert [] + [PreparedEvent(c, r)] == [PreparedEvent(c, r)];
  }

  /** The files and the blob, without the event. */
  lemma BeforeEvent(c: Crypto, s: StoreState, key: RunKey)
    requires key !in s.active && !InTrash(s, key)
    ensures var r := FirstRequest(c, key);
      ApplyAll(ApplyAll(s, BeginHead(r)), Missing(c, s)) == Prepared(c, s, key).(active := s.active[key := DirAfterHead(r)])
  {
    var r := FirstRequest(c, key);
    BeginHeadSafe(c, s, r);
    MissingApplied(c, s.(active := s.active[key := DirAfterHead(r)]));
  }

  lemma PreparedSteps(c: Crypto, s: StoreState, key: RunKey)
    requires key !in s.active && !InTrash(s, key)
    ensures ApplyAll(s, BeginScript(c, s, FirstRequest(c, key)).steps) == Prepared(c, s, key)
  {
    var r := FirstRequest(c, key);
    var t := ApplyAll(ApplyAll(s, BeginHead(r)), Missing(c, s));
    BeginWithOneEntry(c, s, key);
    ThreeParts(s, BeginHead(r), Missing(c, s), AppendLine(key, PreparedEvent(c, r)));
    BeforeEvent(c, s, key);
    EventLast(c, t, r);
    assert t.active[key := PreparedDir(c, r)] == s.active[key := PreparedDir(c, r)];
  }

  lemma PreparedReferences(c: Crypto, key: RunKey)
    ensures c.bytes(Letter) in DirReferences(PreparedDir(c, FirstRequest(c, key)))
  {
    var digest: Digest := c.bytes(Letter);
    var seal := PreparedDir(c, FirstRequest(c, key)).contents.seal.value;
    assert seal.entries[0].current == digest;
    assert digest in DigestsOf(seal) && ValidDigest(digest);
  }

  function Beginning(c: Crypto, s: StoreState, key: RunKey): Attempt
  {
    Attempt(Begin(FirstRequest(c, key)), |BeginScript(c, s, FirstRequest(c, key)).steps|)
  }

  lemma BeginningPrepares(c: Crypto, s: StoreState, key: RunKey)
    requires key !in s.active && !InTrash(s, key)
    ensures After(c, s, Beginning(c, s, key)) == Prepared(c, s, key)
  {
    var steps := BeginScript(c, s, FirstRequest(c, key)).steps;
    assert Prefix(steps, |steps|) == steps;
    PreparedSteps(c, s, key);
  }

  lemma PreparedAlone(c: Crypto, key: RunKey)
    ensures var a := Beginning(c, EmptyStore, key);
      Reaches(c, [a], After(c, EmptyStore, a)) && Alone(c, After(c, EmptyStore, a), key, "PREPARED")
  {
    var a := Beginning(c, EmptyStore, key);
    assert [a] == [] + [a];
    assert StoreOK(c, EmptyStore);
    ReachesMore(c, [], EmptyStore, a);
    BeginningPrepares(c, EmptyStore, key);
    PreparedOnlyRun(c, key);
  }

  lemma PreparedOnlyRun(c: Crypto, key: RunKey)
    ensures OnlyRun(c, Prepared(c, EmptyStore, key), key)
  {
    PreparedReferences(c, key);
    var t := Prepared(c, EmptyStore, key);
    assert t.active == map[key := t.active[key]];
    assert t.blobs == OneBlob(c).blobs;
  }

  /** The command that moves a run to its next state. */
  function Transition(key: RunKey, next: string): Operation
  {
    Command(key, [MoveTo(next, 0, 0)])
  }

  lemma SingleAction(c: Crypto, s: StoreState, key: RunKey, action: Action)
    ensures ActionsScript(c, s, key, [action]).steps == ActionScript(c, s, key, action).steps
  {
    var first := ActionScript(c, s, key, action);
    assert [action][1..] == [];
    assert first.steps + [] == first.steps;
  }

  lemma TransitionWrites(c: Crypto, s: StoreState, key: RunKey, next: string)
    requires Loadable(c, s, key)
    ensures Writes(c, s, Transition(key, next)) == UpdateScript(c, s, key, next, 0, 0).steps
  {
    LoadableLoads(c, s, key);
    SingleAction(c, s, key, MoveTo(next, 0, 0));
  }

  /** The two writes of a transition. */
  lemma TransitionSteps(c: Crypto, s: StoreState, key: RunKey, state: string, next: string)
    requires Alone(c, s, key, state) && AllowedTransition(state, next)
    ensures var script := UpdateScript(c, s, key, next, 0, 0);
      var run := s.active[key].contents.run.value;
      var event := NextEvent(c.event, JournalOf(s.active[key]), "state_transition", TransitionPayload(state, next), 0);
      script.result.Ok? && script.steps == [AppendLine(key, event), PutRun(key, run.(state := next, updatedAt := 0))]
  {
  }

  lemma StepAlone(c: Crypto, s: StoreState, key: RunKey, step: FileStep)
    requires OnlyRun(c, s, key) && IsDirStep(step) && !step.PutSeal? && step.key == key
    ensures OnlyRun(c, Apply(s, step), key) && Apply(s, step).active[key] == ApplyToDir(s.active[key], step)
  {
    assert s.active[key := ApplyToDir(s.active[key], step)] == map[key := ApplyToDir(s.active[key], step)];
  }

  /** Two writes into the only run. */
  lemma StepsAlone(c: Crypto, s: StoreState, key: RunKey, a: FileStep, b: FileStep)
    requires OnlyRun(c, s, key)
    requires IsDirStep(a) && !a.PutSeal? && a.key == key && IsDirStep(b) && !b.PutSeal? && b.key == key
    ensures var t := ApplyAll(s, [a]); OnlyRun(c, t, key) && t.active[key] == ApplyToDir(s.active[key], a)
    ensures var t := ApplyAll(s, [a, b]); OnlyRun(c, t, key) && t.active[key] == ApplyToDir(ApplyToDir(s.active[key], a), b)
  {
    var t := Apply(s, a);
    StepAlone(c, s, key, a);
    StepAlone(c, t, key, b);
    assert [a][1..] == [] && [a, b][1..] == [b] && [b][1..] == [];
    assert ApplyAll(t, [b]) == Apply(t, b);
  }

  lemma TransitionKeepsFiles(c: Crypto, s: StoreState, key: RunKey, state: string, next: string)
    requires Alone(c, s, key, state) && AllowedTransition(state, next)
    ensures var t := ApplyAll(s, UpdateScript(c, s, key, next, 0, 0).steps);
      && OnlyRun(c, t, key)
      && t.active[key].contents.run.Some? && t.active[key].contents.run.value.state == next
      && t.active[key].contents.files.Keys == {"inventory.json"}
      && var journal := JournalOf(t.active[key]); journal != [] && journal[|journal| - 1].body.kind == "state_transition"
  {
    TransitionSteps(c, s, key, state, next);
    var steps := UpdateScript(c, s, key, next, 0, 0).steps;
    StepsAlone(c, s, key, steps[0], steps[1]);
  }

  lemma TransitionAlone(c: Crypto, history: seq<Attempt>, s: StoreState, key: RunKey, state: string, next: string)
    requires Reaches(c, history, s) && Alone(c, s, key, state) && AllowedTransition(state, next)
    ensures var a := Attempt(Transition(key, next), 2);
      var t := After(c, s, a);
      Reaches(c, history + [a], t) && Alone(c, t, key, next)
  {
    var a := Attempt(Transition(key, next), 2);
    var steps := UpdateScript(c, s, key, next, 0, 0).steps;
    ReachesMore(c, history, s, a);
    TransitionWrites(c, s, key, next);
    TransitionSteps(c, s, key, state, next);
    assert Prefix(steps, 2) == steps;
    UpdateSafe(c, s, key, next, 0, 0);
    TransitionKeepsFiles(c, s, key, state, next);
  }

  /** From the first state to the one that may be collected. */
  const Route: seq<string> := ["PREPARED", "CONTRACTED", "REVIEWING", "REVIEWED", "GATED", "REREVIEWED", "FINALIZED", "EXPORTED"]

  lemma RouteAllowed(i: nat)
    requires i < 7
    ensures AllowedTransition(Route[i], Route[i + 1])
  {
  }

  lemma {:induction false} RunReaches(c: Crypto, key: RunKey, i: nat) returns (history: seq<Attempt>, s: StoreState)
    requires i < 8
    ensures Reaches(c, history, s) && Alone(c, s, key, Route[i])
  {
    if i == 0 {
      PreparedAlone(c, key);
      history := [Beginning(c, EmptyStore, key)];
      s := After(c, EmptyStore, history[0]);
    } else {
      var before, t := RunReaches(c, key, i - 1);
      RouteAllowed(i - 1);
      TransitionAlone(c, before, t, key, Route[i - 1], Route[i]);
      var a := Attempt(Transition(key, Route[i]), 2);
      history, s := before + [a], After(c, t, a);
    }
  }

  // ----- An update without the guard -----

  /**
   A transition that stops after its event leaves a lagging `run.json`. The update allows the same
   transition once more, and after it no reader accepts the journal.
   */
  lemma UnguardedUpdateBreaksJournal(c: Crypto, key: RunKey, eventTime: int, now: int)
    returns (history: seq<Attempt>, s: StoreState)
    ensures Reaches(c, history, s) && key in s.active && s.active[key].contents.run.Some?
    ensures var script := UpdateScript(c, s, key, "CONTRACTED", eventTime, now);
      var run := s.active[key].contents.run.value;
      && script.result.Ok?
      && JournalState(JournalOf(s.active[key]), run.snapshotID, run.dataClass) == Some("CONTRACTED")
      && JournalState(JournalOf(Dir(ApplyAll(s, script.steps), key)), run.snapshotID, run.dataClass) == None
  {
    var before, t := RunReaches(c, key, 0);
    var a := Attempt(Transition(key, "CONTRACTED"), 1);
    ReachesMore(c, before, t, a);
    TransitionWrites(c, t, key, "CONTRACTED");
    history, s := before + [a], After(c, t, a);
    HalfTransition(c, t, key, "PREPARED", "CONTRACTED");
    assert RunOK(c, s.blobs.Keys, key, s.active[key]);
    UpdateNeedsTheGuard(c, s, key, "CONTRACTED", eventTime, now);
  }

  /** After the event alone the journal is at the next state and `run.json` at the old one. */
  lemma HalfTransition(c: Crypto, s: StoreState, key: RunKey, state: string, next: string)
    requires Alone(c, s, key, state) && AllowedTransition(state, next)
    ensures var t := ApplyAll(s, Prefix(UpdateScript(c, s, key, next, 0, 0).steps, 1));
      && key in t.active && t.active[key].archive.None? && t.active[key].contents.journal.Some?
      && t.active[key].contents.run == s.active[key].contents.run
      && var run := s.active[key].contents.run.value;
         JournalState(JournalOf(t.active[key]), run.snapshotID, run.dataClass) == Some(next)
  {
    var d := s.active[key];
    var steps := UpdateScript(c, s, key, next, 0, 0).steps;
    TransitionSteps(c, s, key, state, next);
    StepsAlone(c, s, key, steps[0], steps[1]);
    assert Prefix(steps, 1) == [steps[0]];
    AppendLineKeeps(c, d, key, "state_transition", TransitionPayload(state, next), 0);
    TransitionDecodes(state, next);
  }

  // ----- A collectable run -----

  /** A store that holds one run: archived at this time, exported, unpinned, without public evidence. */
  ghost predicate Collectable(c: Crypto, s: StoreState, key: RunKey, archivedAt: int)
  {
    && StoreOK(c, s) && OnlyRun(c, s, key)
    && s.active[key].contents.seal.Some? && s.active[key].archive.Some?
    && s.active[key].archive.value.archivedAt == archivedAt
    && Eligible(s.active[key], s.active[key].archive.value, archivedAt)
  }

  lemma ArchivingScript(c: Crypto, s: StoreState, r: ArchiveRequest)
    requires Alone(c, s, r.key, "EXPORTED") && ValidKey(r.key) && TrimSpace(r.reason) != "" && r.now != 0 && !r.pinned
    ensures var script := ArchiveScript(c, s, r);
      var d := s.active[r.key];
      && script.result.Ok? && |script.steps| == 2
      && script.steps[0].AppendLine? && script.steps[0].key == r.key && script.steps[1] == PutArchive(r.key, script.result.value)
      && script.result.value.archivedAt == r.eventTime && !script.result.value.pinned
      && script.result.value.runState == "EXPORTED"
  {
    assert RunOK(c, s.blobs.Keys, r.key, s.active[r.key]);
    ArchivableScript(c, s, r);
  }

  lemma ArchivedAlone(c: Crypto, s: StoreState, r: ArchiveRequest)
    requires Alone(c, s, r.key, "EXPORTED") && ValidKey(r.key) && TrimSpace(r.reason) != "" && r.now != 0 && !r.pinned
    ensures var t := ApplyAll(s, ArchiveScript(c, s, r).steps);
      && OnlyRun(c, t, r.key)
      && t.active[r.key].contents.seal.Some? && t.active[r.key].archive.Some?
      && t.active[r.key].archive.value.archivedAt == r.eventTime
      && Eligible(t.active[r.key], t.active[r.key].archive.value, r.eventTime)
  {
    ArchivingScript(c, s, r);
    var steps := ArchiveScript(c, s, r).steps;
    var d := s.active[r.key];
    var e := ApplyToDir(ApplyToDir(d, steps[0]), steps[1]);
    assert steps == [steps[0], steps[1]];
    StepsAlone(c, s, r.key, steps[0], steps[1]);
    NoPublicEvidence(e);
  }

  lemma NoPublicEvidence(d: RunDir)
    requires d.contents.files.Keys == {"inventory.json"}
    ensures !PublicEvidence(d)
  {
    forall path, prefix | path in d.contents.files && prefix in ProtectedPrefixes ensures !HasPrefix(path, prefix) {
      assert path == "inventory.json";
      assert prefix[0] == 'a' || prefix[0] == 'e';
    }
  }

  lemma DoneIsAReason()
    ensures TrimSpace("done") != ""
  {
    assert TrimLeft("done") == "done" && TrimRight("done") == "done";
  }

  /** Whatever the time, a run can be archived at it. */
  lemma CollectableReached(c: Crypto, key: RunKey, archivedAt: int) returns (history: seq<Attempt>, s: StoreState)
    requires ValidKey(key)
    ensures Reaches(c, history, s) && Collectable(c, s, key, archivedAt)
  {
    var before, t := RunReaches(c, key, 7);
    var r := ArchiveRequest(key, "done", false, 1, archivedAt);
    var a := Attempt(Archive(r), 2);
    DoneIsAReason();
    ArchivingScript(c, t, r);
    ArchivedAlone(c, t, r);
    ReachesMore(c, before, t, a);
    assert Prefix(ArchiveScript(c, t, r).steps, 2) == ArchiveScript(c, t, r).steps;
    history, s := before + [a], After(c, t, a);
  }

  // ----- A recovery in the middle of a collection -----

  lemma PlanOfOne(c: Crypto, s: StoreState, key: RunKey, asOf: int)
    requires Collectable(c, s, key, asOf - Retention(1)) && ValidKey(key) && asOf != 0
    ensures var script := PlanScript(c, s, key.repository, 1, asOf);
      script.result.Ok? && key in Keys(script.result.value.candidates)
  {
    PlanningSucceeds(c, s, key.repository, 1, asOf);
    PlanSelectsExactly(c, s, key.repository, 1, asOf, PlanScript(c, s, key.repository, 1, asOf).result.value);
  }

  /** The only run of the store is the plan's first candidate. */
  lemma OnlyCandidate(s: StoreState, key: RunKey, candidates: seq<GCCandidate>)
    requires s.active.Keys == {key} && key in Keys(candidates) && Keys(candidates) <= s.active.Keys
    ensures candidates != [] && KeyOf(candidates[0]) == key
  {
    assert KeyOf(candidates[0]) in Keys(candidates);
  }

  lemma PlannedCandidates(c: Crypto, s: StoreState, key: RunKey, asOf: int, plan: GCPlan)
    requires Collectable(c, s, key, asOf - Retention(1)) && ValidKey(key) && asOf != 0
    requires PlanScript(c, s, key.repository, 1, asOf).result == Ok(plan)
    ensures plan.candidates != [] && KeyOf(plan.candidates[0]) == key
  {
    PlanOfOne(c, s, key, asOf);
    PlanSelectsExactly(c, s, key.repository, 1, asOf, plan);
    forall k | k in Keys(plan.candidates) ensures k in s.active {
      assert Selectable(s, key.repository, asOf - Retention(1), k);
    }
    OnlyCandidate(s, key, plan.candidates);
  }

  lemma StoredIsExecutable(c: Crypto, s: StoreState, plan: GCPlan)
    requires PlanAccepted(c, Apply(s, PutPlan(plan)), plan) && PlanIntact(c, plan, plan.planDigest)
    requires plan.planDigest !in s.executions && plan.candidates != [] && KeyOf(plan.candidates[0]) in s.active
    ensures Executable(c, Apply(s, PutPlan(plan)), plan)
  {
    var digest: Digest := c.plan(plan.(planDigest := ""));
    assert ValidDigest(digest);
  }

  lemma PlannedIsExecutable(c: Crypto, s: StoreState, key: RunKey, asOf: int, plan: GCPlan)
    requires Collectable(c, s, key, asOf - Retention(1)) && ValidKey(key) && asOf != 0
    requires PlanScript(c, s, key.repository, 1, asOf).result == Ok(plan)
    ensures Executable(c, Apply(s, PutPlan(plan)), plan) && KeyOf(plan.candidates[0]) == key
  {
    PlannedCandidates(c, s, key, asOf, plan);
    PlanningIsFresh(c, s, key.repository, 1, asOf, plan);
    PlannedConsidered(c, s, key.repository, 1, asOf, plan);
    StoredPlanAccepted(c, s, plan);
    StoredIsExecutable(c, s, plan);
  }

  /** No other run is in place and none is in a trash. */
  predicate NothingElse(c: Crypto, s: StoreState, key: RunKey)
  {
    s.active.Keys == {key} && s.trash == map[] && c.bytes(Letter) in DirReferences(s.active[key])
  }

  lemma OnlyRunIsAll(c: Crypto, s: StoreState, plan: GCPlan, key: RunKey)
    requires OnlyRun(c, s, key)
    ensures NothingElse(c, Apply(s, PutPlan(plan)), key)
  {
    assert s.active.Keys == {key};
  }

  /** The plan is stored. */
  lemma PlannedReached(c: Crypto, key: RunKey) returns (history: seq<Attempt>, t: StoreState, s: StoreState, plan: GCPlan)
    requires ValidKey(key)
    ensures Reaches(c, history, s) && StoreOK(c, s) && Executable(c, s, plan) && KeyOf(plan.candidates[0]) == key
    ensures OnlyRun(c, t, key) && s == Apply(t, PutPlan(plan))
  {
    var before;
    before, t := CollectableReached(c, key, 1 - Retention(1));
    PlanOfOne(c, t, key, 1);
    var script := PlanScript(c, t, key.repository, 1, 1);
    plan := script.result.value;
    PlannedIsExecutable(c, t, key, 1, plan);
    var a := Attempt(Plan(key.repository, 1, 1), 1);
    assert Admissible(c, t, a.op) by { assert t.plans == map[]; }
    ReachesMore(c, before, t, a);
    PlanWrites(c, t, key.repository, 1, 1);
    OneWrite(t, script.steps);
    history, s := before + [a], After(c, t, a);
  }

  lemma PlanWrites(c: Crypto, s: StoreState, repository: string, days: int, asOf: int)
    requires PlanScript(c, s, repository, days, asOf).result.Ok?
    ensures var script := PlanScript(c, s, repository, days, asOf);
      Writes(c, s, Plan(repository, days, asOf)) == script.steps && script.steps == [PutPlan(script.result.value)]
  {
  }

  /** The run is in the trash of the plan, which would still be executed, and nothing else is anywhere. */
  ghost predicate Moved(c: Crypto, s: StoreState, key: RunKey, plan: GCPlan)
  {
    var p := plan.planDigest;
    && s.active == map[] && s.trash.Keys == {p} && s.trash[p].Keys == {key}
    && p in s.plans && s.plans[p] == plan && p !in s.executions
    && key in Keys(plan.candidates) && Keys(plan.candidates) <= {key} && c.bytes(Letter) in plan.blobDigests
  }

  ghost predicate Executes(c: Crypto, s: StoreState, p: string)
  {
    forall now, remains {:trigger ExecuteScript(c, s, p, now, remains)} :: now != 0 ==> ExecuteScript(c, s, p, now, remains).result.Ok?
  }

  lemma ExecutableExecutes(c: Crypto, s: StoreState, plan: GCPlan)
    requires StoreOK(c, s) && Executable(c, s, plan)
    ensures Executes(c, s, plan.planDigest)
  {
    forall now, remains {:trigger ExecuteScript(c, s, plan.planDigest, now, remains)} | now != 0
      ensures ExecuteScript(c, s, plan.planDigest, now, remains).result.Ok?
    {
      AcceptedPlanExecutes(c, s, plan, now, remains);
    }
  }

  lemma OnlyCandidates(c: Crypto, s: StoreState, key: RunKey, plan: GCPlan)
    requires Executable(c, s, plan) && NothingElse(c, s, key) && KeyOf(plan.candidates[0]) == key
    ensures key in Keys(plan.candidates) && Keys(plan.candidates) <= {key}
  {
    assert key == KeyOf(plan.candidates[0]);
    forall k | k in Keys(plan.candidates) ensures k == key {
      var i :| 0 <= i < |plan.candidates| && KeyOf(plan.candidates[i]) == k;
      assert CandidateAccepted(c, s, plan, plan.candidates[i]);
      assert Locate(s, plan.planDigest, k).Some?;
    }
  }

  lemma MoveShape(s: StoreState, key: RunKey, p: string)
    requires s.active.Keys == {key} && s.trash == map[]
    ensures var t := Apply(s, MoveRun(p, key));
      t == s.(active := map[], trash := t.trash) && t.trash.Keys == {p} && t.trash[p].Keys == {key}
  {
    assert s.active - {key} == map[];
  }

  /** Since no other run references its blob, the plan removes it. */
  lemma RemovesItsBlob(c: Crypto, s: StoreState, key: RunKey, plan: GCPlan)
    requires PlanAccepted(c, s, plan) && NothingElse(c, s, key) && key in Keys(plan.candidates)
    ensures c.bytes(Letter) in plan.blobDigests
  {
    var d := c.bytes(Letter);
    KeptAtFirst(c, s, plan);
    assert d in ActiveReferences(s, Keys(plan.candidates));
    assert !HasKeeper(plan, s, d);
  }

  lemma MoveMoves(c: Crypto, s: StoreState, key: RunKey, plan: GCPlan, t: StoreState)
    requires Executable(c, s, plan) && NothingElse(c, s, key) && KeyOf(plan.candidates[0]) == key
    requires t == Apply(s, MoveRun(plan.planDigest, key))
    ensures Moved(c, t, key, plan)
  {
    OnlyCandidates(c, s, key, plan);
    RemovesItsBlob(c, s, key, plan);
    MoveShape(s, key, plan.planDigest);
  }

  /** The run has been moved, and the execution could still be repeated. */
  lemma MovedReached(c: Crypto, key: RunKey) returns (history: seq<Attempt>, s: StoreState, plan: GCPlan)
    requires ValidKey(key)
    ensures Reaches(c, history, s) && StoreOK(c, s) && Moved(c, s, key, plan) && Executes(c, s, plan.planDigest)
  {
    var before, collectable, t;
    before, collectable, t, plan := PlannedReached(c, key);
    OnlyRunIsAll(c, collectable, plan, key);
    var p := plan.planDigest;
    var a := Attempt(Execute(p, 1, map[]), 1);
    DiesAfterMove(c, t, plan, 1, map[], key);
    assert Admissible(c, t, a.op);
    ReachesMore(c, before, t, a);
    history, s := before + [a], After(c, t, a);
    MoveMoves(c, t, key, plan, s);
    ExecutableExecutes(c, t, plan);
    RetryExecutes(c, t, p, a);
  }

  lemma RetryExecutes(c: Crypto, s: StoreState, p: string, a: Attempt)
    requires StoreOK(c, s) && p !in s.executions && Executes(c, s, p) && a.op.Execute? && a.op.planDigest == p
    ensures Executes(c, After(c, s, a), p)
  {
    var t := After(c, s, a);
    assert Replay(c, s, [a]) == t by { assert [a][1..] == []; }
    forall now, remains {:trigger ExecuteScript(c, t, p, now, remains)} | now != 0
      ensures ExecuteScript(c, t, p, now, remains).result.Ok?
    {
      assert ExecuteScript(c, s, p, now, remains).result.Ok?;
      RetryCompletes(c, s, p, now, [a], now, remains);
    }
  }

  /**
   Starting a run, finishing it, archiving it, planning its collection, an execution that dies
   after its first rename, and a recovery of that run: from there on the run stays in the trash of
   a plan that can never be executed, and no repository can plan another collection.
   */
  lemma StrandedRunReached(c: Crypto, key: RunKey) returns (history: seq<Attempt>, s: StoreState, p: string)
    requires ValidKey(key)
    ensures Reaches(c, history, s)
    ensures key in TrashOf(s, p) && Unsealed(s, key) && p in s.plans && p !in s.executions
    ensures forall later :: AdmissibleHistory(c, s, later) ==> CollectionBlocked(c, Replay(c, s, later), p)
  {
    var before, moved, plan := MovedReached(c, key);
    p := plan.planDigest;
    var b := Attempt(Recover(key, "", 0, 0), 1);
    ReachesMore(c, before, moved, b);
    history, s := before + [b], After(c, moved, b);
    RecoverAbsent(c, moved, b);
    forall later | AdmissibleHistory(c, s, later) ensures CollectionBlocked(c, Replay(c, s, later), p) {
      RecoveryStrandsMovedRun(c, moved, p, b, later);
      StrayBlocksCollection(c, moved, b, later);
    }
  }

  ghost predicate CollectionBlocked(c: Crypto, s: StoreState, p: string)
  {
    && (forall now, remains {:trigger ExecuteScript(c, s, p, now, remains)} :: ExecuteScript(c, s, p, now, remains).result.Err?)
    && forall repository, days, asOf :: PlanScript(c, s, repository, days, asOf).result.Err?
  }

  // ----- A new run in the middle of a collection -----

  /** The plan is not executed, and keeps the run in its trash. */
  ghost predicate Refused(c: Crypto, s: StoreState, key: RunKey, p: string)
  {
    && p !in s.executions && key in TrashOf(s, p)
    && forall now, remains {:trigger ExecuteScript(c, s, p, now, remains)} :: ExecuteScript(c, s, p, now, remains).result.Err?
  }

  lemma SharingIsRefused(c: Crypto, t: StoreState, share: Share, key: RunKey, later: seq<Attempt>)
    requires StoreOK(c, t) && Sharing(t, share) && key in share.moved
    requires AdmissibleHistory(c, t, later) && AllLeavePlan(share.plan.planDigest, later)
    ensures Refused(c, Replay(c, t, later), key, share.plan.planDigest)
  {
    var u, p := Replay(c, t, later), share.plan.planDigest;
    SharingStays(c, t, share, later);
    forall now, remains {:trigger ExecuteScript(c, u, p, now, remains)} ensures ExecuteScript(c, u, p, now, remains).result.Err? {
      SharingRefuses(c, u, share, now, remains);
    }
  }

  /** The new run references the blob that the plan removes. */
  lemma NewRunShares(c: Crypto, s: StoreState, key: RunKey, plan: GCPlan, other: RunKey)
    requires Moved(c, s, key, plan) && other != key
    ensures var t := Prepared(c, s, other);
      && Sharing(t, Share(plan, other, c.bytes(Letter), s.trash[plan.planDigest]))
      && AllSealed(t) && Admissible(c, s, Begin(FirstRequest(c, other)))
  {
    PreparedReferences(c, other);
    assert other !in Keys(plan.candidates);
  }

  /**
   The same history up to the crash, after which the execution could be repeated, and then a new run
   over the same file, started and completed: every directory has its snapshot, and yet for as long
   as no other plan is executed the plan is refused and the archived run stays in its trash.
   */
  lemma SharedBlobReached(c: Crypto, key: RunKey, other: RunKey)
    returns (history: seq<Attempt>, crashed: StoreState, begin: Attempt, p: string)
    requires ValidKey(key) && other != key
    ensures Reaches(c, history, crashed) && Executes(c, crashed, p) && p !in crashed.executions && key in TrashOf(crashed, p)
    ensures begin.op.Begin? && begin.op.begin.key == other
    ensures Reaches(c, history + [begin], After(c, crashed, begin)) && AllSealed(After(c, crashed, begin))
    ensures forall later :: AdmissibleHistory(c, After(c, crashed, begin), later) && AllLeavePlan(p, later) ==>
      Refused(c, Replay(c, After(c, crashed, begin), later), key, p)
  {
    var plan;
    history, crashed, plan := MovedReached(c, key);
    p := plan.planDigest;
    begin := Beginning(c, crashed, other);
    NewRunShares(c, crashed, key, plan, other);
    BeginningPrepares(c, crashed, other);
    ReachesMore(c, history, crashed, begin);
    var share := Share(plan, other, c.bytes(Letter), crashed.trash[p]);
    var t := After(c, crashed, begin);
    forall later | AdmissibleHistory(c, t, later) && AllLeavePlan(p, later) ensures Refused(c, Replay(c, t, later), key, p) {
      SharingIsRefused(c, t, share, key, later);
    }
  }

  // ----- Retention -----

  /** Every run such a plan selects was archived at least so many days before. */
  ghost predicate HonoursRetention(c: Crypto, days: int, history: seq<Attempt>, repository: string, asOf: int)
  {
    var s := Replay(c, EmptyStore, history);
    var r := PlanScript(c, s, repository, days, asOf).result;
    AdmissibleHistory(c, EmptyStore, history) && r.Ok? ==>
      forall key :: key in Keys(r.value.candidates) ==>
        key in s.active && s.active[key].archive.Some? && s.active[key].archive.value.archivedAt <= asOf - days * Day
  }

  lemma RetentionFits(days: int)
    requires days >= 1
    ensures days <= 106_751 ==> Retention(days) == days * Day
    ensures days > 106_751 ==> Retention(days) < days * Day
  {
    if days <= 106_751 {
      assert days * Day <= 106_751 * Day;
      assert Wrap64(-(days * Day)) == -(days * Day);
    } else {
      assert days * Day >= 106_752 * Day > 0x8000_0000_0000_0000;
    }
  }

  lemma RetentionKept(c: Crypto, days: int, history: seq<Attempt>, repository: string, asOf: int)
    requires 1 <= days <= 106_751
    ensures HonoursRetention(c, days, history, repository, asOf)
  {
    var s := Replay(c, EmptyStore, history);
    var r := PlanScript(c, s, repository, days, asOf).result;
    if AdmissibleHistory(c, EmptyStore, history) && r.Ok? {
      ReplayKeepsStoreOK(c, EmptyStore, history);
      RetentionFits(days);
      PlanSelectsExactly(c, s, repository, days, asOf, r.value);
    }
  }

  /** A run archived exactly at the wrapped cutoff is planned for removal, too early. */
  lemma RetentionBroken(c: Crypto, days: int, key: RunKey) returns (history: seq<Attempt>)
    requires days > 106_751 && ValidKey(key)
    ensures !HonoursRetention(c, days, history, key.repository, 1)
  {
    var s;
    history, s := CollectableReached(c, key, 1 - Retention(days));
    RetentionFits(days);
    PlanningSucceeds(c, s, key.repository, days, 1);
    var plan := PlanScript(c, s, key.repository, days, 1).result.value;
    PlanSelectsExactly(c, s, key.repository, days, 1, plan);
    assert key in Keys(plan.candidates);
  }

  const SomeKey := RunKey("repo-" + Zeros32, "run-" + Zeros24)
  const Zeros32 := "00000000000000000000000000000000"
  const Zeros24 := "000000000000000000000000"

  ghost predicate AlwaysHonoursRetention(c: Crypto, days: int)
  {
    forall history, repository, asOf :: HonoursRetention(c, days, history, repository, asOf)
  }

  lemma BrokenOnce(c: Crypto, days: int, history: seq<Attempt>, repository: string, asOf: int)
    requires !HonoursRetention(c, days, history, repository, asOf)
    ensures !AlwaysHonoursRetention(c, days)
  {
  }

  /** The configured retention is honoured, in every reachable state, exactly up to 106751 days. */
  lemma RetentionHonoured(c: Crypto, days: int)
    requires days >= 1
    ensures AlwaysHonoursRetention(c, days) <==> days <= 106_751
  {
    if days <= 106_751 {
      forall history, repository, asOf ensures HonoursRetention(c, days, history, repository, asOf) {
        RetentionKept(c, days, history, repository, asOf);
      }
    } else {
      assert ValidKey(SomeKey) by { SomeKeyIsValid(); }
      var history := RetentionBroken(c, days, SomeKey);
      BrokenOnce(c, days, history, SomeKey.repository, 1);
    }
  }

  lemma SomeKeyIsValid()
    ensures ValidKey(SomeKey)
  {
  }
}
