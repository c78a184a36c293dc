/**
 The durable state of the store and its operations, as scripts of atomic file steps.

 A step is one atomic replace, one appended journal line, one rename or one removal.
 An operation decides everything from the state it reads and yields a `Script`: the
 steps it writes, in order, and the result it returns. A crash keeps a prefix of the steps.
 Operations run one at a time, which is what the store's lock files are for.
 */
module RunStore {
  import opened Common
  import opened Text
  import opened Digests
  import opened Ordering
  import opened Journal

  // ----- What the store holds -----

  datatype Run = Run(
    id: string, repository: string, snapshotID: string, dataClass: string, state: string,
    createdAt: int, updatedAt: int)

  datatype SealEntry = SealEntry(current: string, previous: string)

  /** A snapshot; `evidence` stands for the members no store operation reads. */
  datatype Seal = Seal(snapshotID: string, entries: seq<SealEntry>, evidence: string)

  datatype ArchiveRecord = ArchiveRecord(
    repository: string, run: string, runState: string, archivedAt: int, pinned: bool, reason: string,
    lastEventHash: string, contentDigest: string, recordDigest: string)

  datatype GCCandidate = GCCandidate(repository: string, run: string, archiveDigest: string, contentDigest: string)

  datatype GCPlan = GCPlan(
    repository: string, asOf: int, retentionDays: int, candidates: seq<GCCandidate>,
    blobDigests: seq<string>, planDigest: string)

  datatype GCExecution = GCExecution(planDigest: string, executedAt: int, removedRuns: nat, removedBlobs: nat)

  datatype RunKey = RunKey(repository: string, run: string)

  /** The hashed part of a run directory: all regular files except `archive.json` and `locks/`. */
  datatype Contents = Contents(
    run: Option<Run>, seal: Option<Seal>, journal: Option<seq<Event>>, files: map<string, string>)

  datatype RunDir = RunDir(contents: Contents, archive: Option<ArchiveRecord>)

  const EmptyDir := RunDir(Contents(None, None, None, map[]), None)

  datatype StoreState = StoreState(
    active: map<RunKey, RunDir>,
    trash: map<string, map<RunKey, RunDir>>,
    blobs: map<string, string>,
    plans: map<string, GCPlan>,
    executions: map<string, GCExecution>)

  const EmptyStore := StoreState(map[], map[], map[], map[], map[])

  /** The digests the store computes, all SHA-256 over some encoding. */
  datatype Crypto = Crypto(
    event: EventDigest, bytes: string -> Digest, contents: Contents -> Digest,
    record: ArchiveRecord -> Digest, plan: GCPlan -> Digest)

  // ----- Atomic file steps -----

  datatype FileStep =
    | MakeRun(key: RunKey)
    | PutRun(key: RunKey, run: Run)
    | PutSeal(key: RunKey, seal: Seal)
    | PutFile(key: RunKey, path: string, content: string)
    | DropFile(key: RunKey, path: string)
    | AppendLine(key: RunKey, event: Event)
    | PutArchive(key: RunKey, record: ArchiveRecord)
    | PutBlob(digest: string, content: string)
    | DropBlob(digest: string)
    | PutPlan(plan: GCPlan)
    | MoveRun(planDigest: string, key: RunKey)
    | PutExecution(execution: GCExecution)
    | DamageTrash(planDigest: string, remains: map<RunKey, RunDir>)
    | DropTrash(planDigest: string)

  function Dir(s: StoreState, key: RunKey): RunDir
  {
    if key in s.active then s.active[key] else EmptyDir
  }

  function JournalOf(d: RunDir): seq<Event>
  {
    if d.contents.journal.Some? then d.contents.journal.value else []
  }

  /** What a step that only touches one run directory makes of it. */
  function ApplyToDir(d: RunDir, step: FileStep): RunDir
  {
    match step
    case PutRun(_, run) => d.(contents := d.contents.(run := Some(run)))
    case PutSeal(_, seal) => d.(contents := d.contents.(seal := Some(seal)))
    case PutFile(_, path, content) => d.(contents := d.contents.(files := d.contents.files[path := content]))
    case DropFile(_, path) => d.(contents := d.contents.(files := d.contents.files - {path}))
    case AppendLine(_, event) => d.(contents := d.contents.(journal := Some(JournalOf(d) + [event])))
    case PutArchive(_, record) => d.(archive := Some(record))
    case _ => d
  }

  predicate IsDirStep(step: FileStep)
  {
    step.MakeRun? || step.PutRun? || step.PutSeal? || step.PutFile? || step.DropFile? || step.AppendLine? || step.PutArchive?
  }

  function TrashOf(s: StoreState, planDigest: string): map<RunKey, RunDir>
  {
    if planDigest in s.trash then s.trash[planDigest] else map[]
  }

  function Apply(s: StoreState, step: FileStep): StoreState
  {
    if IsDirStep(step) then
      s.(active := s.active[step.key := ApplyToDir(Dir(s, step.key), step)])
    else
      match step
      case PutBlob(digest, content) => s.(blobs := s.blobs[digest := content])
      case DropBlob(digest) => s.(blobs := s.blobs - {digest})
      case PutPlan(plan) => s.(plans := s.plans[plan.planDigest := plan])
      case MoveRun(planDigest, key) =>
        s.(active := s.active - {key}, trash := s.trash[planDigest := TrashOf(s, planDigest)[key := Dir(s, key)]])
      case PutExecution(execution) => s.(executions := s.executions[execution.planDigest := execution])
      case DamageTrash(planDigest, remains) =>
        // a recursive removal that stopped half way leaves some directories, with any contents
        if planDigest in s.trash
        then s.(trash := s.trash[planDigest := map k | k in remains && k in s.trash[planDigest] :: remains[k]])
        else s
      case DropTrash(planDigest) => s.(trash := s.trash - {planDigest})
  }

  function ApplyAll(s: StoreState, steps: seq<FileStep>): StoreState
    decreases |steps|
  {
    if steps == [] then s else ApplyAll(Apply(s, steps[0]), steps[1..])
  }

  lemma {:induction false} ApplyAllSplit(s: StoreState, a: seq<FileStep>, b: seq<FileStep>)
    ensures ApplyAll(s, a + b) == ApplyAll(ApplyAll(s, a), b)
    decreases |a|
  {
    if a == [] {
      assert a + b == b;
    } else {
      assert (a + b)[1..] == a[1..] + b;
      ApplyAllSplit(Apply(s, a[0]), a[1..], b);
    }
  }

  // ----- Scripts -----

  datatype StoreError =
    | InvalidInput | RunArchived | NotFound | BadTransition | BadJournal | BadArchive | NotEligible
    | BlobMismatch | PlanMismatch | RecoveryMismatch | TargetExists

  datatype Script<+T> = Script(steps: seq<FileStep>, result: Result<T, StoreError>)

  function Fail<T>(error: StoreError): Script<T>
  {
    Script([], Err(error))
  }

  // ----- Starting a run -----

  /** An inventory entry at capture time, with the contents the stored snapshot leaves out. */
  datatype CapturedEntry = CapturedEntry(
    current: string, currentContent: string, previous: string, previousContent: string)

  function StoredEntries(captured: seq<CapturedEntry>): (r: seq<SealEntry>)
    ensures |r| == |captured|
  {
    seq(|captured|, i requires 0 <= i < |captured| => SealEntry(captured[i].current, captured[i].previous))
  }

  const DataClasses: set<string> := {"public_synthetic", "public_project", "private_project"}

  function BlobScript(c: Crypto, blobs: map<string, string>, digest: string, content: string): Script<()>
  {
    if !ValidDigest(digest) || c.bytes(content) != digest then Fail(BlobMismatch)
    else if digest in blobs then Script([], Ok(()))
    else Script([PutBlob(digest, content)], Ok(()))
  }

  /** An entry's two optional blobs, current before previous. */
  function EntryScript(c: Crypto, s: StoreState, entry: CapturedEntry): Script<()>
  {
    var first := if entry.current == "" then Script([], Ok(())) else BlobScript(c, s.blobs, entry.current, entry.currentContent);
    if first.result.Err? || entry.previous == "" then first
    else
      var second := BlobScript(c, ApplyAll(s, first.steps).blobs, entry.previous, entry.previousContent);
      Script(first.steps + second.steps, second.result)
  }

  function EntriesScript(c: Crypto, s: StoreState, captured: seq<CapturedEntry>): Script<()>
    decreases |captured|
  {
    if captured == [] then Script([], Ok(()))
    else
      var first := EntryScript(c, s, captured[0]);
      if first.result.Err? then first
      else
        var rest := EntriesScript(c, ApplyAll(s, first.steps), captured[1..]);
        Script(first.steps + rest.steps, rest.result)
  }

  function AppendScript(c: Crypto, s: StoreState, key: RunKey, kind: string, payload: Payload, now: int): Script<Event>
  {
    if Dir(s, key).archive.Some? then Fail(RunArchived)
    else
      var event := NextEvent(c.event, JournalOf(Dir(s, key)), kind, payload, now);
      Script([AppendLine(key, event)], Ok(event))
  }

  datatype BeginRequest = BeginRequest(
    key: RunKey, snapshotID: string, captured: seq<CapturedEntry>, evidence: string, inventory: string,
    dataClass: string, now: int, eventTime: int)

  function NewRun(r: BeginRequest): Run
  {
    Run(r.key.run, r.key.repository, r.snapshotID, r.dataClass, "PREPARED", r.now, r.now)
  }

  function PreparedPayload(r: BeginRequest): Payload
  {
    map["snapshot_id" := Text(r.snapshotID), "data_class" := Text(r.dataClass)]
  }

  function BeginHead(r: BeginRequest): seq<FileStep>
  {
    [ MakeRun(r.key), PutRun(r.key, NewRun(r)),
      PutSeal(r.key, Seal(r.snapshotID, StoredEntries(r.captured), r.evidence)),
      PutFile(r.key, "inventory.json", r.inventory) ]
  }

  /** Run, snapshot and inventory files, then every blob, then the event that makes the run loadable. */
  function BeginScript(c: Crypto, s: StoreState, r: BeginRequest): Script<Run>
  {
    if r.dataClass !in DataClasses then Fail(InvalidInput)
    else
      var s1 := ApplyAll(s, BeginHead(r));
      var blobs := EntriesScript(c, s1, r.captured);
      if blobs.result.Err? then Script(BeginHead(r) + blobs.steps, Err(blobs.result.error))
      else
        var tail := AppendScript(c, ApplyAll(s1, blobs.steps), r.key, "run_prepared", PreparedPayload(r), r.eventTime);
        Script(BeginHead(r) + blobs.steps + tail.steps,
               if tail.result.Ok? then Ok(NewRun(r)) else Err(tail.result.error))
  }

  // ----- Loading and updating a run -----

  /** The guard every command takes first: unarchived, linked journal, `run.json` at the journal's state. */
  ghost function LoadRun(c: Crypto, s: StoreState, key: RunKey): Result<(Run, Seal), StoreError>
  {
    var d := Dir(s, key);
    if d.archive.Some? then Err(RunArchived)
    else if d.contents.run.None? || d.contents.seal.None? || d.contents.journal.None? then Err(NotFound)
    else
      var run, seal := d.contents.run.value, d.contents.seal.value;
      if !ChainValid(c.event, JournalOf(d)) then Err(BadJournal)
      else if JournalState(JournalOf(d), run.snapshotID, run.dataClass) != Some(run.state) then Err(BadJournal)
      else if run.snapshotID != seal.snapshotID then Err(BadJournal)
      else if run.dataClass !in DataClasses then Err(InvalidInput)
      else Ok((run, seal))
  }

  function TransitionPayload(from: string, to: string): Payload
  {
    map["from" := Text(from), "to" := Text(to)]
  }

  /** `UpdateRunStateHeld`: trusts `run.json`, writes the transition event, then `run.json`. */
  function UpdateScript(c: Crypto, s: StoreState, key: RunKey, next: string, eventTime: int, now: int): Script<Run>
  {
    var d := Dir(s, key);
    if d.archive.Some? then Fail(RunArchived)
    else if d.contents.run.None? then Fail(NotFound)
    else
      var run := d.contents.run.value;
      if !AllowedTransition(run.state, next) then Fail(BadTransition)
      else
        var event := NextEvent(c.event, JournalOf(d), "state_transition", TransitionPayload(run.state, next), eventTime);
        var updated := run.(state := next, updatedAt := now);
        Script([AppendLine(key, event), PutRun(key, updated)], Ok(updated))
  }

  /** What a command does to its run after the guard. */
  datatype Action =
    | Record(kind: string, payload: Payload, now: int)
    | MoveTo(next: string, eventTime: int, now: int)
    | Write(path: string, content: string)
    | Remove(path: string)

  function ActionScript(c: Crypto, s: StoreState, key: RunKey, action: Action): Script<()>
  {
    match action
    case Record(kind, payload, now) =>
      var script := AppendScript(c, s, key, kind, payload, now);
      Script(script.steps, if script.result.Ok? then Ok(()) else Err(script.result.error))
    case MoveTo(next, eventTime, now) =>
      var script := UpdateScript(c, s, key, next, eventTime, now);
      Script(script.steps, if script.result.Ok? then Ok(()) else Err(script.result.error))
    case Write(path, content) =>
      if Dir(s, key).archive.Some? then Fail(RunArchived) else Script([PutFile(key, path, content)], Ok(()))
    case Remove(path) =>
      if Dir(s, key).archive.Some? then Fail(RunArchived)
      else if path !in Dir(s, key).contents.files then Fail(NotFound)
      else Script([DropFile(key, path)], Ok(()))
  }

  /** Actions in order; the first failing one ends the command. */
  function ActionsScript(c: Crypto, s: StoreState, key: RunKey, actions: seq<Action>): Script<()>
    decreases |actions|
  {
    if actions == [] then Script([], Ok(()))
    else
      var first := ActionScript(c, s, key, actions[0]);
      if first.result.Err? then first
      else
        var rest := ActionsScript(c, ApplyAll(s, first.steps), key, actions[1..]);
        Script(first.steps + rest.steps, rest.result)
  }

  ghost function CommandScript(c: Crypto, s: StoreState, key: RunKey, actions: seq<Action>): Script<()>
  {
    var loaded := LoadRun(c, s, key);
    if loaded.Err? then Fail(loaded.error) else ActionsScript(c, s, key, actions)
  }

  /**
   `RecoverRun`: brings a lagging `run.json` to the journal's state, echoed by the caller, then
   notes it. It takes the run's lock first, and taking a lock makes the directories above it.
   */
  ghost function RecoverScript(c: Crypto, s: StoreState, key: RunKey, expected: string, now: int, eventTime: int): Script<Run>
  {
    var d := Dir(s, key);
    if !ValidKey(key) then Fail(InvalidInput)
    else if key !in s.active then Script([MakeRun(key)], Err(NotFound))
    else if d.contents.run.None? || d.contents.seal.None? || d.contents.journal.None? then Fail(NotFound)
    else
      var run := d.contents.run.value;
      if run.snapshotID != d.contents.seal.value.snapshotID then Fail(BadJournal)
      else if !ChainValid(c.event, JournalOf(d)) then Fail(BadJournal)
      else
        var derived := JournalState(JournalOf(d), run.snapshotID, run.dataClass);
        if derived.None? then Fail(BadJournal)
        else if derived.value == run.state then Script([], Ok(run))
        else if expected == "" || expected != derived.value then Fail(RecoveryMismatch)
        else BringForward(c, s, key, run, derived.value, now, eventTime)
  }

  /** The run at the journal's state first, the event that notes it second. */
  function BringForward(c: Crypto, s: StoreState, key: RunKey, run: Run, state: string, now: int, eventTime: int): Script<Run>
  {
    var updated := run.(state := state, updatedAt := now);
    var payload := map["persisted_state" := Text(run.state), "journal_state" := Text(state)];
    var note := AppendScript(c, Apply(s, PutRun(key, updated)), key, "run_recovered", payload, eventTime);
    Script([PutRun(key, updated)] + note.steps, if note.result.Ok? then Ok(updated) else Err(note.result.error))
  }

  // ----- Archiving -----

  datatype ArchiveFacts = ArchiveFacts(pinned: bool, reason: string, state: string)

  function EncodeFacts(f: ArchiveFacts): Payload
  {
    map["pinned" := Flag(f.pinned), "reason" := Text(f.reason), "state" := Text(f.state)]
  }

  function TextMember(payload: Payload, key: string): Option<string>
  {
    if key !in payload then Some("") else if payload[key].Text? then Some(payload[key].text) else None
  }

  /** Decoding into a struct: a missing member is its zero value, a member of another type is an error. */
  function DecodeFacts(payload: Payload): Option<ArchiveFacts>
  {
    var reason, state := TextMember(payload, "reason"), TextMember(payload, "state");
    if reason.None? || state.None? then None
    else if "pinned" !in payload then Some(ArchiveFacts(false, reason.value, state.value))
    else if payload["pinned"].Flag? then Some(ArchiveFacts(payload["pinned"].flag, reason.value, state.value))
    else None
  }

  datatype ArchiveRequest = ArchiveRequest(
    key: RunKey, reason: string, pinned: bool, now: int, eventTime: int)

  predicate ValidKey(key: RunKey)
  {
    ValidID(key.repository, "repo-", 32) && ValidID(key.run, "run-", 24)
  }

  const ArchivableStates: set<string> := {"FINALIZED", "EXPORTED", "BLOCKED"}

  function SealedRecord(c: Crypto, r: ArchiveRequest, state: string, last: Event, contents: Contents): ArchiveRecord
  {
    var record := ArchiveRecord(r.key.repository, r.key.run, state, last.body.recordedAt, r.pinned,
                                TrimSpace(r.reason), last.hash, c.contents(contents), "");
    record.(recordDigest := c.record(record))
  }

  /** The archive event, unless it is already the last one, then `archive.json`. */
  ghost function ArchiveScript(c: Crypto, s: StoreState, r: ArchiveRequest): Script<ArchiveRecord>
  {
    var d := Dir(s, r.key);
    if !ValidKey(r.key) || TrimSpace(r.reason) == "" || r.now == 0 then Fail(InvalidInput)
    else if r.key !in s.active then Fail(NotFound)
    else if d.archive.Some? then Fail(RunArchived)
    else if d.contents.run.None? || d.contents.journal.None? then Fail(NotFound)
    else
      var run := d.contents.run.value;
      if run.id != r.key.run || run.repository != r.key.repository then Fail(BadArchive)
      else if run.state !in ArchivableStates then Fail(NotEligible)
      else if !ChainValid(c.event, JournalOf(d)) then Fail(BadJournal)
      else if JournalState(JournalOf(d), run.snapshotID, run.dataClass) != Some(run.state) then Fail(BadJournal)
      else
        var last := JournalOf(d)[|JournalOf(d)| - 1];
        var facts := ArchiveFacts(r.pinned, TrimSpace(r.reason), run.state);
        if last.body.kind == "run_archived" then
          if DecodeFacts(last.body.payload) != Some(facts) then Fail(BadArchive)
          else
            var record := SealedRecord(c, r, run.state, last, d.contents);
            Script([PutArchive(r.key, record)], Ok(record))
        else
          var event := NextEvent(c.event, JournalOf(d), "run_archived", EncodeFacts(facts), r.eventTime);
          var line := AppendLine(r.key, event);
          var record := SealedRecord(c, r, run.state, event, ApplyToDir(d, line).contents);
          Script([line, PutArchive(r.key, record)], Ok(record))
  }

  /** What the checks of `ArchiveRun` establish. */
  ghost predicate Archivable(c: Crypto, s: StoreState, r: ArchiveRequest)
  {
    var d := Dir(s, r.key);
    && ValidKey(r.key) && TrimSpace(r.reason) != "" && r.now != 0 && r.key in s.active
    && d.archive.None? && d.contents.run.Some? && d.contents.journal.Some?
    && var run := d.contents.run.value;
    && run.id == r.key.run && run.repository == r.key.repository && run.state in ArchivableStates
    && ChainValid(c.event, JournalOf(d))
    && JournalState(JournalOf(d), run.snapshotID, run.dataClass) == Some(run.state)
  }

  lemma ArchivableScript(c: Crypto, s: StoreState, r: ArchiveRequest)
    requires Archivable(c, s, r)
    ensures var d := Dir(s, r.key);
      var state := d.contents.run.value.state;
      var last := JournalOf(d)[|JournalOf(d)| - 1];
      var facts := ArchiveFacts(r.pinned, TrimSpace(r.reason), state);
      ArchiveScript(c, s, r) ==
        if last.body.kind == "run_archived" then
          if DecodeFacts(last.body.payload) != Some(facts) then Fail(BadArchive)
          else
            var record := SealedRecord(c, r, state, last, d.contents);
            Script([PutArchive(r.key, record)], Ok(record))
        else
          var event := NextEvent(c.event, JournalOf(d), "run_archived", EncodeFacts(facts), r.eventTime);
          var line := AppendLine(r.key, event);
          var record := SealedRecord(c, r, state, event, ApplyToDir(d, line).contents);
          Script([line, PutArchive(r.key, record)], Ok(record))
  {
  }

  /** The record's own digest covers the record. */
  predicate RecordIntact(c: Crypto, record: ArchiveRecord)
  {
    record.recordDigest != "" && c.record(record.(recordDigest := "")) == record.recordDigest
  }

  /** `verifyArchivedRun`: the journal, its archive event and the tree digest still match the record. */
  ghost predicate ArchiveVerified(c: Crypto, d: RunDir, record: ArchiveRecord)
  {
    && d.contents.journal.Some? && ChainValid(c.event, JournalOf(d))
    && var last := JournalOf(d)[|JournalOf(d)| - 1];
    && last.body.kind == "run_archived" && last.hash == record.lastEventHash
    && DecodeFacts(last.body.payload) == Some(ArchiveFacts(record.pinned, record.reason, record.runState))
    && last.body.recordedAt == record.archivedAt
    && c.contents(d.contents) == record.contentDigest
  }

  // ----- Garbage collection: planning -----

  const Day: int := 86_400_000_000_000

  /** A signed 64-bit value. */
  function Wrap64(x: int): int
  {
    (x + 0x8000_0000_0000_0000) % 0x1_0000_0000_0000_0000 - 0x8000_0000_0000_0000
  }

  /** The retention interval in nanoseconds: what is added to the time is `-days * Day` in 64-bit arithmetic. */
  function Retention(days: int): int
  {
    -Wrap64(-(days * Day))
  }

  predicate HasPrefix(s: string, prefix: string)
  {
    prefix <= s
  }

  const ProtectedPrefixes: set<string> :=
    {"approvals/public-", "approvals/redaction-", "exports/public-bundle", "exports/public-tombstone"}

  /** The run keeps public-export evidence. */
  ghost predicate PublicEvidence(d: RunDir)
  {
    exists path, prefix :: path in d.contents.files && prefix in ProtectedPrefixes && HasPrefix(path, prefix)
  }

  function DigestsOf(seal: Seal): (r: set<string>)
  {
    (set i | 0 <= i < |seal.entries| :: seal.entries[i].current) + (set i | 0 <= i < |seal.entries| :: seal.entries[i].previous)
  }

  /** The blobs a snapshot references. */
  function References(seal: Seal): (r: set<string>)
  {
    set d | d in DigestsOf(seal) && ValidDigest(d)
  }

  function DirReferences(d: RunDir): set<string>
  {
    if d.contents.seal.Some? then References(d.contents.seal.value) else {}
  }

  /** Blobs referenced by an active run outside `excluded`, over every repository. */
  ghost function Retained(s: StoreState, excluded: set<RunKey>): set<string>
  {
    set key, d | key in s.active && key !in excluded && d in DirReferences(s.active[key]) :: d
  }

  /** Every active run directory has a readable snapshot. */
  ghost predicate AllSealed(s: StoreState)
  {
    forall key :: key in s.active ==> s.active[key].contents.seal.Some?
  }

  ghost function RunIDs(s: StoreState, repository: string): seq<string>
  {
    Listing(set key | key in s.active && key.repository == repository :: key.run)
  }

  /** The automatic eligibility rules. */
  ghost predicate Eligible(d: RunDir, record: ArchiveRecord, cutoff: int)
  {
    !record.pinned && record.runState == "EXPORTED" && record.archivedAt <= cutoff && !PublicEvidence(d)
  }

  function CandidateOf(record: ArchiveRecord): GCCandidate
  {
    GCCandidate(record.repository, record.run, record.recordDigest, record.contentDigest)
  }

  ghost predicate RecordNames(record: ArchiveRecord, key: RunKey)
  {
    && record.repository == key.repository && record.run == key.run
    && ValidDigest(record.contentDigest) && ValidDigest(record.lastEventHash)
  }

  /** One directory of the planning scan: skipped, selected, or an error that stops planning. */
  ghost function Consider(c: Crypto, key: RunKey, d: RunDir, cutoff: int): Result<Option<GCCandidate>, StoreError>
  {
    if d.archive.None? then Ok(None)
    else
      var record := d.archive.value;
      if !RecordIntact(c, record) || !RecordNames(record, key) then Err(BadArchive)
      else if !Eligible(d, record, cutoff) then Ok(None)
      else if !ArchiveVerified(c, d, record) then Err(BadArchive)
      else Ok(Some(CandidateOf(record)))
  }

  ghost function Candidates(c: Crypto, s: StoreState, repository: string, cutoff: int, ids: seq<string>)
    : Result<seq<GCCandidate>, StoreError>
    decreases |ids|
  {
    if ids == [] then Ok([])
    else
      var key := RunKey(repository, ids[0]);
      var first := Consider(c, key, Dir(s, key), cutoff);
      var rest := Candidates(c, s, repository, cutoff, ids[1..]);
      if first.Err? then Err(first.error)
      else if rest.Err? then rest
      else Ok((if first.value.Some? then [first.value.value] else []) + rest.value)
  }

  function KeyOf(candidate: GCCandidate): RunKey
  {
    RunKey(candidate.repository, candidate.run)
  }

  ghost function Keys(candidates: seq<GCCandidate>): set<RunKey>
  {
    set i | 0 <= i < |candidates| :: KeyOf(candidates[i])
  }

  /** Blobs referenced by the given active runs. */
  ghost function ActiveReferences(s: StoreState, keys: set<RunKey>): set<string>
  {
    set key, d | key in keys && key in s.active && d in DirReferences(s.active[key]) :: d
  }

  ghost function NewPlan(c: Crypto, s: StoreState, repository: string, days: int, asOf: int, candidates: seq<GCCandidate>): GCPlan
  {
    var keys := Keys(candidates);
    var plan := GCPlan(repository, asOf, days, candidates,
                       Listing(ActiveReferences(s, keys) - Retained(s, keys)), "");
    plan.(planDigest := c.plan(plan))
  }

  ghost function PlanScript(c: Crypto, s: StoreState, repository: string, days: int, asOf: int): Script<GCPlan>
  {
    if !ValidID(repository, "repo-", 32) || days < 1 || asOf == 0 then Fail(InvalidInput)
    else
      var candidates := Candidates(c, s, repository, asOf - Retention(days), RunIDs(s, repository));
      if candidates.Err? then Fail(candidates.error)
      else if !AllSealed(s) then Fail(NotFound)
      else
        var plan := NewPlan(c, s, repository, days, asOf, candidates.value);
        Script([PutPlan(plan)], Ok(plan))
  }

  // ----- Garbage collection: execution -----

  /** `candidateLocation`: the run directory, in place or already in this plan's trash. */
  function Locate(s: StoreState, planDigest: string, key: RunKey): Option<RunDir>
  {
    if key in s.active then Some(s.active[key])
    else if key in TrashOf(s, planDigest) then Some(TrashOf(s, planDigest)[key])
    else None
  }

  ghost predicate PlanIntact(c: Crypto, plan: GCPlan, expected: string)
  {
    && plan.planDigest == expected && c.plan(plan.(planDigest := "")) == expected
    && ValidID(plan.repository, "repo-", 32) && plan.retentionDays >= 1 && plan.asOf != 0
  }

  /** Everything `ExecuteGC` re-checks about one candidate before it touches anything. */
  ghost predicate CandidateAccepted(c: Crypto, s: StoreState, plan: GCPlan, candidate: GCCandidate)
  {
    && candidate.repository == plan.repository && ValidKey(KeyOf(candidate))
    && ValidDigest(candidate.archiveDigest) && ValidDigest(candidate.contentDigest)
    && var found := Locate(s, plan.planDigest, KeyOf(candidate));
    && found.Some? && found.value.archive.Some?
    && var record := found.value.archive.value;
    && RecordIntact(c, record)
    && record.recordDigest == candidate.archiveDigest && record.contentDigest == candidate.contentDigest
    && Eligible(found.value, record, plan.asOf - Retention(plan.retentionDays))
    && ArchiveVerified(c, found.value, record)
  }

  /** Blobs referenced by the candidates wherever they are now. */
  ghost function CandidateReferences(s: StoreState, plan: GCPlan): set<string>
  {
    ActiveReferences(s, Keys(plan.candidates)) +
    set key, d | key in Keys(plan.candidates) && Locate(s, plan.planDigest, key).Some?
                 && d in DirReferences(Locate(s, plan.planDigest, key).value) :: d
  }

  /** The blobs the plan would remove, recomputed now. */
  ghost function ExpectedBlobs(s: StoreState, plan: GCPlan): seq<string>
  {
    Listing(CandidateReferences(s, plan) - Retained(s, Keys(plan.candidates)))
  }

  ghost predicate CandidatesSealed(s: StoreState, plan: GCPlan)
  {
    forall key :: key in Keys(plan.candidates) && Locate(s, plan.planDigest, key).Some? ==>
      Locate(s, plan.planDigest, key).value.contents.seal.Some?
  }

  /** Rename each candidate that is still in place. */
  function MoveScript(s: StoreState, planDigest: string, candidates: seq<GCCandidate>): Script<()>
    decreases |candidates|
  {
    if candidates == [] then Script([], Ok(()))
    else
      var key := KeyOf(candidates[0]);
      if key !in s.active then MoveScript(s, planDigest, candidates[1..])
      else if key in TrashOf(s, planDigest) then Fail(TargetExists)
      else
        var step := MoveRun(planDigest, key);
        var rest := MoveScript(Apply(s, step), planDigest, candidates[1..]);
        Script([step] + rest.steps, rest.result)
  }

  /** Delete each planned blob that is still there, checking its bytes first. */
  function DropScript(c: Crypto, s: StoreState, digests: seq<string>): Script<()>
    decreases |digests|
  {
    if digests == [] then Script([], Ok(()))
    else if !ValidDigest(digests[0]) then Fail(InvalidInput)
    else if digests[0] !in s.blobs then DropScript(c, s, digests[1..])
    else if c.bytes(s.blobs[digests[0]]) != digests[0] then Fail(BlobMismatch)
    else
      var step := DropBlob(digests[0]);
      var rest := DropScript(c, Apply(s, step), digests[1..]);
      Script([step] + rest.steps, rest.result)
  }

  /** The checks made before the first write. */
  ghost predicate PlanAccepted(c: Crypto, s: StoreState, plan: GCPlan)
  {
    && (forall i :: 0 <= i < |plan.candidates| ==> CandidateAccepted(c, s, plan, plan.candidates[i]))
    && AllSealed(s) && CandidatesSealed(s, plan)
    && ExpectedBlobs(s, plan) == plan.blobDigests
  }

  function ExecutionOf(plan: GCPlan, now: int): GCExecution
  {
    GCExecution(plan.planDigest, now, |plan.candidates|, |plan.blobDigests|)
  }

  /** Remove a trash directory file by file: some damaged remains, then nothing. */
  function PurgeSteps(planDigest: string, remains: map<RunKey, RunDir>): seq<FileStep>
  {
    [DamageTrash(planDigest, remains), DropTrash(planDigest)]
  }

  /** The write half of `ExecuteGC`: all runs to trash, then the blobs, then the record, then the trash. */
  function SweepScript(c: Crypto, s: StoreState, plan: GCPlan, now: int, remains: map<RunKey, RunDir>): Script<GCExecution>
  {
    var moves := MoveScript(s, plan.planDigest, plan.candidates);
    if moves.result.Err? then Script(moves.steps, Err(moves.result.error))
    else
      var drops := DropScript(c, ApplyAll(s, moves.steps), plan.blobDigests);
      if drops.result.Err? then Script(moves.steps + drops.steps, Err(drops.result.error))
      else
        Script(moves.steps + drops.steps + [PutExecution(ExecutionOf(plan, now))] + PurgeSteps(plan.planDigest, remains),
               Ok(ExecutionOf(plan, now)))
  }

  ghost function ExecuteScript(c: Crypto, s: StoreState, expected: string, now: int, remains: map<RunKey, RunDir>): Script<GCExecution>
  {
    if !ValidDigest(expected) || now == 0 then Fail(InvalidInput)
    else if expected in s.executions then
      if s.executions[expected].planDigest != expected then Fail(PlanMismatch)
      else Script(PurgeSteps(expected, remains), Ok(s.executions[expected]))
    else if expected !in s.plans then Fail(NotFound)
    else
      var plan := s.plans[expected];
      if !PlanIntact(c, plan, expected) || !PlanAccepted(c, s, plan) then Fail(PlanMismatch)
      else SweepScript(c, s, plan, now, remains)
  }

  // ----- Histories -----

  datatype Operation =
    | Begin(begin: BeginRequest)
    | Command(key: RunKey, actions: seq<Action>)
    | Recover(key: RunKey, expected: string, now: int, eventTime: int)
    | Archive(archive: ArchiveRequest)
    | Plan(repository: string, days: int, asOf: int)
    | Execute(planDigest: string, now: int, remains: map<RunKey, RunDir>)

  /** The writes of an operation, in order. */
  ghost function Writes(c: Crypto, s: StoreState, op: Operation): seq<FileStep>
  {
    match op
    case Begin(r) => BeginScript(c, s, r).steps
    case Command(key, actions) => CommandScript(c, s, key, actions).steps
    case Recover(key, expected, now, eventTime) => RecoverScript(c, s, key, expected, now, eventTime).steps
    case Archive(r) => ArchiveScript(c, s, r).steps
    case Plan(repository, days, asOf) => PlanScript(c, s, repository, days, asOf).steps
    case Execute(planDigest, now, remains) => ExecuteScript(c, s, planDigest, now, remains).steps
  }

  function Prefix<T>(xs: seq<T>, n: nat): seq<T>
  {
    if n <= |xs| then xs[..n] else xs
  }

  lemma PrefixRest<T>(xs: seq<T>, n: nat)
    requires xs != [] && n > 0
    ensures Prefix(xs, n) != [] && Prefix(xs, n)[0] == xs[0] && Prefix(xs, n)[1..] == Prefix(xs[1..], n - 1)
  {
  }

  /** An operation and how many of its writes happened before the process stopped. */
  datatype Attempt = Attempt(op: Operation, writes: nat)

  ghost function After(c: Crypto, s: StoreState, a: Attempt): StoreState
  {
    ApplyAll(s, Prefix(Writes(c, s, a.op), a.writes))
  }

  ghost function Replay(c: Crypto, s: StoreState, history: seq<Attempt>): StoreState
    decreases |history|
  {
    if history == [] then s else Replay(c, After(c, s, history[0]), history[1..])
  }

  /** Some plan's trash holds the run. */
  ghost predicate InTrash(s: StoreState, key: RunKey)
  {
    exists p :: p in s.trash && key in s.trash[p]
  }

  /** A plan's digest is not that of a different stored plan. */
  ghost predicate NewDigest(s: StoreState, plan: GCPlan)
  {
    plan.planDigest in s.plans ==> s.plans[plan.planDigest] == plan
  }

  ghost predicate PlansWithoutCollision(c: Crypto, s: StoreState, repository: string, days: int, asOf: int)
  {
    var r := PlanScript(c, s, repository, days, asOf).result;
    r.Ok? ==> NewDigest(s, r.value)
  }

  /** Run identifiers are fresh random values, plan digests do not collide, and commands record transitions only through `MoveTo`. */
  ghost predicate Admissible(c: Crypto, s: StoreState, op: Operation)
  {
    && (op.Begin? ==> op.begin.key !in s.active && !InTrash(s, op.begin.key))
    && (op.Command? ==> forall i :: 0 <= i < |op.actions| && op.actions[i].Record? ==> op.actions[i].kind != "state_transition")
    && (op.Plan? ==> PlansWithoutCollision(c, s, op.repository, op.days, op.asOf))
  }

  ghost predicate AdmissibleHistory(c: Crypto, s: StoreState, history: seq<Attempt>)
    decreases |history|
  {
    history == [] || (Admissible(c, s, history[0].op) && AdmissibleHistory(c, After(c, s, history[0]), history[1..]))
  }
}
