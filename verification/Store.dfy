/**
 The store as an object whose methods read its directories and write them one file step at
 a time. `writesLeft` is how many more writes the process makes before it is killed, so every
 method is proved for every place it can crash: it carries out a prefix of its script.
 */
module StoreObject {
  import opened Common
  import opened Text
  import opened Digests
  import opened Ordering
  import opened Journal
  import opened RunStore

  /** How a call ends: it returns, or the process dies first. */
  datatype Outcome<+T> = Returned(result: Result<T, StoreError>) | Crashed

  // ----- Carrying out scripts -----

  ghost predicate Done(s: StoreState, budget: nat, steps: seq<FileStep>, t: StoreState, left: nat)
  {
    budget >= |steps| && left == budget - |steps| && t == ApplyAll(s, steps)
  }

  ghost predicate Died(s: StoreState, budget: nat, steps: seq<FileStep>, t: StoreState, left: nat)
  {
    budget < |steps| && left == 0 && t == ApplyAll(s, steps[..budget])
  }

  /** The call wrote the whole script and returned its result, or as much of it as the budget allowed. */
  ghost predicate Performed<T>(s: StoreState, budget: nat, script: Script<T>, t: StoreState, left: nat, outcome: Outcome<T>)
  {
    match outcome
    case Returned(result) => result == script.result && Done(s, budget, script.steps, t, left)
    case Crashed => Died(s, budget, script.steps, t, left)
  }

  lemma DoneThenDone(s: StoreState, budget: nat, a: seq<FileStep>, t: StoreState, left: nat, b: seq<FileStep>, u: StoreState, rest: nat)
    requires Done(s, budget, a, t, left) && Done(t, left, b, u, rest)
    ensures Done(s, budget, a + b, u, rest)
  {
    ApplyAllSplit(s, a, b);
  }

  lemma DoneThenDied(s: StoreState, budget: nat, a: seq<FileStep>, t: StoreState, left: nat, b: seq<FileStep>, u: StoreState)
    requires Done(s, budget, a, t, left) && Died(t, left, b, u, 0)
    ensures Died(s, budget, a + b, u, 0)
  {
    ApplyAllSplit(s, a, b[..left]);
    assert (a + b)[..budget] == a + b[..left];
  }

  lemma DiedEarlier(s: StoreState, budget: nat, a: seq<FileStep>, t: StoreState, b: seq<FileStep>)
    requires Died(s, budget, a, t, 0)
    ensures Died(s, budget, a + b, t, 0)
  {
    assert (a + b)[..budget] == a[..budget];
  }

  lemma DoneThenDiedEarlier(s: StoreState, budget: nat, a: seq<FileStep>, t: StoreState, left: nat, b: seq<FileStep>, u: StoreState,
                            all: seq<FileStep>)
    requires Done(s, budget, a, t, left) && Died(t, left, b, u, 0) && a + b <= all
    ensures Died(s, budget, all, u, 0)
  {
    DoneThenDied(s, budget, a, t, left, b, u);
    DiedEarlier(s, budget, a + b, u, all[|a + b|..]);
    assert all == a + b + all[|a + b|..];
  }

  /** After finishing `a`, performing the rest of the script performs the script. */
  lemma DoneThenPerformed<T>(s: StoreState, budget: nat, a: seq<FileStep>, t: StoreState, left: nat,
                             rest: Script<T>, u: StoreState, final: nat, outcome: Outcome<T>)
    requires Done(s, budget, a, t, left) && Performed(t, left, rest, u, final, outcome)
    ensures Performed(s, budget, Script(a + rest.steps, rest.result), u, final, outcome)
  {
    if outcome.Returned? {
      DoneThenDone(s, budget, a, t, left, rest.steps, u, final);
    } else {
      DoneThenDied(s, budget, a, t, left, rest.steps, u);
    }
  }

  ghost predicate LocatedSealed(s: StoreState, plan: GCPlan, key: RunKey)
  {
    var found := Locate(s, plan.planDigest, key);
    found.Some? ==> found.value.contents.seal.Some?
  }

  ghost predicate LocatedAt(s: StoreState, plan: GCPlan, key: RunKey, d: string)
  {
    var found := Locate(s, plan.planDigest, key);
    found.Some? && d in DirReferences(found.value)
  }

  lemma OneMoreStep(s: StoreState, written: seq<FileStep>, t: StoreState, step: FileStep, rest: seq<FileStep>)
    ensures written + ([step] + rest) == written + [step] + rest
    ensures written + [step] <= written + ([step] + rest)
    ensures ApplyAll(t, [step]) == Apply(t, step)
  {
    assert [step][1..] == [];
  }

  lemma EntriesUnfold(c: Crypto, t: StoreState, captured: seq<CapturedEntry>, written: seq<FileStep>, script: Script<()>)
    requires captured != []
    requires script == Script(written + EntriesScript(c, t, captured).steps, EntriesScript(c, t, captured).result)
    ensures var first := EntryScript(c, t, captured[0]);
      && written + first.steps <= script.steps
      && if first.result.Err? then script == Script(written + first.steps, first.result)
         else
           var rest := EntriesScript(c, ApplyAll(t, first.steps), captured[1..]);
           script == Script(written + first.steps + rest.steps, rest.result)
  {
    var first := EntryScript(c, t, captured[0]);
    var rest := EntriesScript(c, ApplyAll(t, first.steps), captured[1..]);
    EntriesStep(c, t, captured, first, rest);
    JoinSteps(written, first.steps, rest.steps);
  }

  lemma EntriesStep(c: Crypto, t: StoreState, captured: seq<CapturedEntry>, first: Script<()>, rest: Script<()>)
    requires captured != [] && first == EntryScript(c, t, captured[0])
    requires rest == EntriesScript(c, ApplyAll(t, first.steps), captured[1..])
    ensures EntriesScript(c, t, captured) == if first.result.Err? then first else Script(first.steps + rest.steps, rest.result)
  {
  }

  lemma JoinSteps(written: seq<FileStep>, a: seq<FileStep>, b: seq<FileStep>)
    ensures written + (a + b) == written + a + b && written + a <= written + (a + b)
  {
  }

  function Joined(found: seq<GCCandidate>, rest: Result<seq<GCCandidate>, StoreError>): Result<seq<GCCandidate>, StoreError>
  {
    if rest.Err? then rest else Ok(found + rest.value)
  }

  function Chosen(one: Option<GCCandidate>): seq<GCCandidate>
  {
    if one.Some? then [one.value] else []
  }

  lemma JoinedTwice(a: seq<GCCandidate>, b: seq<GCCandidate>, rest: Result<seq<GCCandidate>, StoreError>)
    ensures Joined(a, Joined(b, rest)) == Joined(a + b, rest) && Joined([], rest) == rest
  {
    if rest.Ok? {
      assert a + (b + rest.value) == a + b + rest.value;
      assert [] + rest.value == rest.value;
    }
  }

  lemma CandidatesStep(c: Crypto, s: StoreState, repository: string, cutoff: int, ids: seq<string>, i: nat)
    requires i < |ids|
    ensures var one := Consider(c, RunKey(repository, ids[i]), Dir(s, RunKey(repository, ids[i])), cutoff);
      Candidates(c, s, repository, cutoff, ids[i..]) ==
        if one.Err? then Err(one.error) else Joined(Chosen(one.value), Candidates(c, s, repository, cutoff, ids[i + 1..]))
  {
    assert ids[i..][0] == ids[i] && ids[i..][1..] == ids[i + 1..];
  }

  /** The first half of archiving: the event that states the facts. */
  function ArchiveEventScript(c: Crypto, r: ArchiveRequest, facts: ArchiveFacts, journal: seq<Event>): Script<Event>
    requires journal != []
  {
    var last := journal[|journal| - 1];
    if last.body.kind == "run_archived" then
      if DecodeFacts(last.body.payload) != Some(facts) then Fail(BadArchive) else Script([], Ok(last))
    else
      var event := NextEvent(c.event, journal, "run_archived", EncodeFacts(facts), r.eventTime);
      Script([AppendLine(r.key, event)], Ok(event))
  }

  /** Archiving is its event, then the record sealed over what the event left. */
  lemma ArchiveInTwo(c: Crypto, s: StoreState, r: ArchiveRequest)
    requires Archivable(c, s, r)
    ensures var d := Dir(s, r.key);
      var facts := ArchiveFacts(r.pinned, TrimSpace(r.reason), d.contents.run.value.state);
      var event := ArchiveEventScript(c, r, facts, JournalOf(d));
      ArchiveScript(c, s, r) ==
        if event.result.Err? then Script(event.steps, Err(event.result.error))
        else
          var record := SealedRecord(c, r, facts.state, event.result.value, Dir(ApplyAll(s, event.steps), r.key).contents);
          Script(event.steps + [PutArchive(r.key, record)], Ok(record))
  {
    ArchivableScript(c, s, r);
    var d := Dir(s, r.key);
    var facts := ArchiveFacts(r.pinned, TrimSpace(r.reason), d.contents.run.value.state);
    var steps := ArchiveEventScript(c, r, facts, JournalOf(d)).steps;
    if steps != [] {
      assert steps[1..] == [];
      assert ApplyAll(s, steps) == Apply(s, steps[0]);
    }
  }

  class Store {
    const crypto: Crypto
    var active: map<RunKey, RunDir>
    var trash: map<string, map<RunKey, RunDir>>
    var blobs: map<string, string>
    var plans: map<string, GCPlan>
    var executions: map<string, GCExecution>
    var writesLeft: nat

    constructor (crypto: Crypto, writes: nat)
      ensures this.crypto == crypto && State() == EmptyStore && writesLeft == writes
    {
      this.crypto := crypto;
      active, trash, blobs, plans, executions := map[], map[], map[], map[], map[];
      writesLeft := writes;
    }

    function State(): StoreState
      reads this
    {
      StoreState(active, trash, blobs, plans, executions)
    }

    /** One atomic file step, unless the process dies instead. */
    method Write(step: FileStep) returns (alive: bool)
      modifies this
      ensures alive ==> Done(old(State()), old(writesLeft), [step], State(), writesLeft)
      ensures !alive ==> Died(old(State()), old(writesLeft), [step], State(), writesLeft)
    {
      assert [step][1..] == [] && [step][..0] == [];
      if writesLeft == 0 {
        return false;
      }
      writesLeft := writesLeft - 1;
      ghost var before := State();
      if IsDirStep(step) {
        active := active[step.key := ApplyToDir(Dir(State(), step.key), step)];
      } else {
        match step
        case PutBlob(digest, content) => blobs := blobs[digest := content];
        case DropBlob(digest) => blobs := blobs - {digest};
        case PutPlan(plan) => plans := plans[plan.planDigest := plan];
        case MoveRun(p, key) =>
          trash := trash[p := TrashOf(State(), p)[key := Dir(State(), key)]];
          active := active - {key};
        case PutExecution(execution) => executions := executions[execution.planDigest := execution];
        case DamageTrash(p, remains) =>
          if p in trash {
            trash := trash[p := map k | k in remains && k in trash[p] :: remains[k]];
          }
        case DropTrash(p) => trash := trash - {p};
      }
      assert State() == Apply(before, step);
      return true;
    }

    // ----- Journals and run state -----

    method AppendEvent(key: RunKey, kind: string, payload: Payload, now: int) returns (outcome: Outcome<Event>)
      modifies this
      ensures Performed(old(State()), old(writesLeft), AppendScript(crypto, old(State()), key, kind, payload, now),
                        State(), writesLeft, outcome)
    {
      var d := Dir(State(), key);
      if d.archive.Some? {
        return Returned(Err(RunArchived));
      }
      var event := NextEvent(crypto.event, JournalOf(d), kind, payload, now);
      var alive := Write(AppendLine(key, event));
      return if alive then Returned(Ok(event)) else Crashed;
    }

    method LoadRun(key: RunKey) returns (r: Result<(Run, Seal), StoreError>)
      ensures r == RunStore.LoadRun(crypto, State(), key)
    {
      var d := Dir(State(), key);
      if d.archive.Some? {
        return Err(RunArchived);
      }
      if d.contents.run.None? || d.contents.seal.None? || d.contents.journal.None? {
        return Err(NotFound);
      }
      var run, seal := d.contents.run.value, d.contents.seal.value;
      var linked := VerifyEventChain(crypto.event, d.contents.journal.value);
      if !linked {
        return Err(BadJournal);
      }
      var derived := RunJournalState(d.contents.journal.value, run.snapshotID, run.dataClass);
      if derived != Some(run.state) || run.snapshotID != seal.snapshotID {
        return Err(BadJournal);
      }
      if run.dataClass !in DataClasses {
        return Err(InvalidInput);
      }
      return Ok((run, seal));
    }

    method UpdateRunState(key: RunKey, next: string, eventTime: int, now: int) returns (outcome: Outcome<Run>)
      modifies this
      ensures Performed(old(State()), old(writesLeft), UpdateScript(crypto, old(State()), key, next, eventTime, now),
                        State(), writesLeft, outcome)
    {
      ghost var s, budget := State(), writesLeft;
      var d := Dir(State(), key);
      if d.archive.Some? {
        return Returned(Err(RunArchived));
      }
      if d.contents.run.None? {
        return Returned(Err(NotFound));
      }
      var run := d.contents.run.value;
      if !AllowedTransition(run.state, next) {
        return Returned(Err(BadTransition));
      }
      ghost var script := UpdateScript(crypto, s, key, next, eventTime, now);
      var appended := AppendEvent(key, "state_transition", TransitionPayload(run.state, next), eventTime);
      assert script.steps == [script.steps[0]] + [script.steps[1]];
      if appended.Crashed? {
        DiedEarlier(s, budget, [script.steps[0]], State(), [script.steps[1]]);
        return Crashed;
      }
      ghost var t, left := State(), writesLeft;
      var updated := run.(state := next, updatedAt := now);
      var alive := Write(PutRun(key, updated));
      outcome := if alive then Returned(Ok(updated)) else Crashed;
      DoneThenPerformed(s, budget, [script.steps[0]], t, left, Script([script.steps[1]], Ok(updated)), State(), writesLeft, outcome);
    }

    method RecoverRun(key: RunKey, expected: string, now: int, eventTime: int) returns (outcome: Outcome<Run>)
      modifies this
      ensures Performed(old(State()), old(writesLeft), RecoverScript(crypto, old(State()), key, expected, now, eventTime),
                        State(), writesLeft, outcome)
    {
      var d := Dir(State(), key);
      if !ValidKey(key) {
        return Returned(Err(InvalidInput));
      }
      if key !in active {
        // the lock is taken before anything is read
        var made := Write(MakeRun(key));
        return if made then Returned(Err(NotFound)) else Crashed;
      }
      if d.contents.run.None? || d.contents.seal.None? || d.contents.journal.None? {
        return Returned(Err(NotFound));
      }
      var run := d.contents.run.value;
      if run.snapshotID != d.contents.seal.value.snapshotID {
        return Returned(Err(BadJournal));
      }
      var linked := VerifyEventChain(crypto.event, d.contents.journal.value);
      if !linked {
        return Returned(Err(BadJournal));
      }
      var derived := RunJournalState(d.contents.journal.value, run.snapshotID, run.dataClass);
      if derived.None? {
        return Returned(Err(BadJournal));
      }
      if derived.value == run.state {
        return Returned(Ok(run));
      }
      if expected == "" || expected != derived.value {
        return Returned(Err(RecoveryMismatch));
      }
      outcome := BringRunForward(key, run, derived.value, now, eventTime);
    }

    method BringRunForward(key: RunKey, run: Run, state: string, now: int, eventTime: int) returns (outcome: Outcome<Run>)
      modifies this
      ensures Performed(old(State()), old(writesLeft), BringForward(crypto, old(State()), key, run, state, now, eventTime),
                        State(), writesLeft, outcome)
    {
      ghost var s, budget := State(), writesLeft;
      ghost var script := BringForward(crypto, s, key, run, state, now, eventTime);
      var updated := run.(state := state, updatedAt := now);
      var alive := Write(PutRun(key, updated));
      ghost var t, left := State(), writesLeft;
      if !alive {
        DiedEarlier(s, budget, [PutRun(key, updated)], State(), script.steps[1..]);
        return Crashed;
      }
      assert ApplyAll(s, [PutRun(key, updated)]) == Apply(s, PutRun(key, updated)) by { assert [PutRun(key, updated)][1..] == []; }
      var payload := map["persisted_state" := Text(run.state), "journal_state" := Text(state)];
      var noted := AppendEvent(key, "run_recovered", payload, eventTime);
      outcome := if noted.Crashed? then Crashed
                 else if noted.result.Ok? then Returned(Ok(updated)) else Returned(Err(noted.result.error));
      DoneThenPerformed(s, budget, [PutRun(key, updated)], t, left, Script(script.steps[1..], script.result), State(), writesLeft, outcome);
    }

    // ----- Starting a run -----

    method WriteBlob(digest: string, content: string) returns (outcome: Outcome<()>)
      modifies this
      ensures Performed(old(State()), old(writesLeft), BlobScript(crypto, old(State()).blobs, digest, content),
                        State(), writesLeft, outcome)
    {
      if !ValidDigest(digest) || crypto.bytes(content) != digest {
        return Returned(Err(BlobMismatch));
      }
      if digest in blobs {
        return Returned(Ok(()));
      }
      var alive := Write(PutBlob(digest, content));
      return if alive then Returned(Ok(())) else Crashed;
    }

    method WriteEntry(entry: CapturedEntry) returns (outcome: Outcome<()>)
      modifies this
      ensures Performed(old(State()), old(writesLeft), EntryScript(crypto, old(State()), entry), State(), writesLeft, outcome)
    {
      ghost var s, budget := State(), writesLeft;
      ghost var first := if entry.current == "" then Script([], Ok(())) else BlobScript(crypto, s.blobs, entry.current, entry.currentContent);
      ghost var script := EntryScript(crypto, s, entry);
      if entry.current != "" {
        outcome := WriteBlob(entry.current, entry.currentContent);
        if outcome.Crashed? {
          DiedEarlier(s, budget, first.steps, State(), script.steps[|first.steps|..]);
          assert script.steps == first.steps + script.steps[|first.steps|..];
          return;
        }
        if outcome.result.Err? {
          return;
        }
      } else {
        outcome := Returned(Ok(()));
      }
      if entry.previous != "" {
        ghost var t, left := State(), writesLeft;
        outcome := WriteBlob(entry.previous, entry.previousContent);
        DoneThenPerformed(s, budget, first.steps, t, left, BlobScript(crypto, t.blobs, entry.previous, entry.previousContent), State(), writesLeft, outcome);
      }
    }

    method WriteEntries(captured: seq<CapturedEntry>) returns (outcome: Outcome<()>)
      modifies this
      ensures Performed(old(State()), old(writesLeft), EntriesScript(crypto, old(State()), captured), State(), writesLeft, outcome)
    {
      ghost var s, budget := State(), writesLeft;
      ghost var script := EntriesScript(crypto, s, captured);
      ghost var written: seq<FileStep> := [];
      for i := 0 to |captured|
        invariant Done(s, budget, written, State(), writesLeft)
        invariant var rest := EntriesScript(crypto, State(), captured[i..]);
          script == Script(written + rest.steps, rest.result)
      {
        ghost var t, left := State(), writesLeft;
        ghost var first := EntryScript(crypto, t, captured[i]);
        EntriesUnfold(crypto, t, captured[i..], written, script);
        assert captured[i..][1..] == captured[i + 1..];
        outcome := WriteEntry(captured[i]);
        if outcome.Crashed? {
          DoneThenDiedEarlier(s, budget, written, t, left, first.steps, State(), script.steps);
          return;
        }
        DoneThenDone(s, budget, written, t, left, first.steps, State(), writesLeft);
        if outcome.result.Err? {
          return;
        }
        written := written + first.steps;
      }
      assert captured[|captured|..] == [];
      assert written + [] == written;
      outcome := Returned(Ok(()));
    }

    method WriteAll(steps: seq<FileStep>) returns (alive: bool)
      modifies this
      ensures alive ==> Done(old(State()), old(writesLeft), steps, State(), writesLeft)
      ensures !alive ==> Died(old(State()), old(writesLeft), steps, State(), writesLeft)
    {
      ghost var s, budget := State(), writesLeft;
      for i := 0 to |steps|
        invariant Done(s, budget, steps[..i], State(), writesLeft)
      {
        ghost var t, left := State(), writesLeft;
        assert steps[..i + 1] == steps[..i] + [steps[i]];
        assert steps == steps[..i + 1] + steps[i + 1..];
        alive := Write(steps[i]);
        if !alive {
          DoneThenDied(s, budget, steps[..i], t, left, [steps[i]], State());
          DiedEarlier(s, budget, steps[..i + 1], State(), steps[i + 1..]);
          return;
        }
        DoneThenDone(s, budget, steps[..i], t, left, [steps[i]], State(), writesLeft);
      }
      assert steps[..|steps|] == steps;
      return true;
    }

    /** Files first, then the blobs, and the `run_prepared` event last. */
    method BeginClassifiedRun(r: BeginRequest) returns (outcome: Outcome<Run>)
      modifies this
      ensures Performed(old(State()), old(writesLeft), BeginScript(crypto, old(State()), r), State(), writesLeft, outcome)
    {
      ghost var s, budget := State(), writesLeft;
      if r.dataClass !in DataClasses {
        return Returned(Err(InvalidInput));
      }
      ghost var script := BeginScript(crypto, s, r);
      ghost var head := BeginHead(r);
      var alive := WriteAll(BeginHead(r));
      if !alive {
        DiedEarlier(s, budget, head, State(), script.steps[|head|..]);
        assert script.steps == head + script.steps[|head|..];
        return Crashed;
      }
      ghost var s1, left1 := State(), writesLeft;
      ghost var entries := EntriesScript(crypto, s1, r.captured);
      var stored := WriteEntries(r.captured);
      if stored.Crashed? {
        DoneThenDied(s, budget, head, s1, left1, entries.steps, State());
        DiedEarlier(s, budget, head + entries.steps, State(), script.steps[|head + entries.steps|..]);
        assert script.steps == head + entries.steps + script.steps[|head + entries.steps|..];
        return Crashed;
      }
      DoneThenDone(s, budget, head, s1, left1, entries.steps, State(), writesLeft);
      if stored.result.Err? {
        return Returned(Err(stored.result.error));
      }
      ghost var s2, left2 := State(), writesLeft;
      var prepared := AppendEvent(r.key, "run_prepared", PreparedPayload(r), r.eventTime);
      ghost var tail := AppendScript(crypto, s2, r.key, "run_prepared", PreparedPayload(r), r.eventTime);
      outcome := if prepared.Crashed? then Crashed
                 else if prepared.result.Ok? then Returned(Ok(NewRun(r))) else Returned(Err(prepared.result.error));
      DoneThenPerformed(s, budget, head + entries.steps, s2, left2, Script(tail.steps, script.result), State(), writesLeft, outcome);
    }

    // ----- Archiving -----

    /** The checks before the first write: the error to return, if any. */
    method CheckArchivable(r: ArchiveRequest) returns (error: Option<StoreError>)
      ensures error.Some? ==> ArchiveScript(crypto, State(), r) == Fail(error.value)
      ensures error.None? ==> Archivable(crypto, State(), r)
    {
      if !ValidKey(r.key) || TrimSpace(r.reason) == "" || r.now == 0 {
        return Some(InvalidInput);
      }
      if r.key !in active {
        return Some(NotFound);
      }
      var d := active[r.key];
      if d.archive.Some? {
        return Some(RunArchived);
      }
      if d.contents.run.None? || d.contents.journal.None? {
        return Some(NotFound);
      }
      var run := d.contents.run.value;
      if run.id != r.key.run || run.repository != r.key.repository {
        return Some(BadArchive);
      }
      if run.state !in ArchivableStates {
        return Some(NotEligible);
      }
      var linked := VerifyEventChain(crypto.event, d.contents.journal.value);
      if !linked {
        return Some(BadJournal);
      }
      var derived := RunJournalState(d.contents.journal.value, run.snapshotID, run.dataClass);
      if derived != Some(run.state) {
        return Some(BadJournal);
      }
      return None;
    }

    /** The archive event: the last one, if it says the same, or a new one. */
    method ArchiveEvent(r: ArchiveRequest, facts: ArchiveFacts, journal: seq<Event>) returns (outcome: Outcome<Event>)
      requires r.key in active && active[r.key].archive.None? && journal == JournalOf(active[r.key]) && journal != []
      modifies this
      ensures Performed(old(State()), old(writesLeft), ArchiveEventScript(crypto, r, facts, journal), State(), writesLeft, outcome)
    {
      var last := journal[|journal| - 1];
      if last.body.kind == "run_archived" {
        return Returned(if DecodeFacts(last.body.payload) != Some(facts) then Err(BadArchive) else Ok(last));
      }
      outcome := AppendEvent(r.key, "run_archived", EncodeFacts(facts), r.eventTime);
    }

    method ArchiveRun(r: ArchiveRequest) returns (outcome: Outcome<ArchiveRecord>)
      modifies this
      ensures Performed(old(State()), old(writesLeft), ArchiveScript(crypto, old(State()), r), State(), writesLeft, outcome)
    {
      ghost var s, budget := State(), writesLeft;
      var error := CheckArchivable(r);
      if error.Some? {
        return Returned(Err(error.value));
      }
      ArchiveInTwo(crypto, s, r);
      var run := active[r.key].contents.run.value;
      var facts := ArchiveFacts(r.pinned, TrimSpace(r.reason), run.state);
      var journal := active[r.key].contents.journal.value;
      ghost var event := ArchiveEventScript(crypto, r, facts, journal);
      ghost var script := ArchiveScript(crypto, s, r);
      var evented := ArchiveEvent(r, facts, journal);
      if evented.Crashed? {
        DiedEarlier(s, budget, event.steps, State(), script.steps[|event.steps|..]);
        assert script.steps == event.steps + script.steps[|event.steps|..];
        return Crashed;
      }
      if evented.result.Err? {
        return Returned(Err(evented.result.error));
      }
      ghost var t, left := State(), writesLeft;
      var record := SealedRecord(crypto, r, run.state, evented.result.value, Dir(State(), r.key).contents);
      var alive := Write(PutArchive(r.key, record));
      outcome := if alive then Returned(Ok(record)) else Crashed;
      DoneThenPerformed(s, budget, event.steps, t, left, Script([PutArchive(r.key, record)], Ok(record)), State(), writesLeft, outcome);
    }

    method VerifyArchivedRun(d: RunDir, record: ArchiveRecord) returns (ok: bool)
      ensures ok <==> ArchiveVerified(crypto, d, record)
    {
      if d.contents.journal.None? {
        return false;
      }
      var linked := VerifyEventChain(crypto.event, d.contents.journal.value);
      if !linked {
        return false;
      }
      var last := d.contents.journal.value[|d.contents.journal.value| - 1];
      if last.body.kind != "run_archived" || last.hash != record.lastEventHash {
        return false;
      }
      if DecodeFacts(last.body.payload) != Some(ArchiveFacts(record.pinned, record.reason, record.runState))
         || last.body.recordedAt != record.archivedAt {
        return false;
      }
      return crypto.contents(d.contents) == record.contentDigest;
    }

    method PublicEvidenceProtected(d: RunDir) returns (found: bool)
      ensures found <==> PublicEvidence(d)
    {
      var paths := d.contents.files.Keys;
      while paths != {}
        invariant paths <= d.contents.files.Keys
        invariant forall path, prefix :: path in d.contents.files && path !in paths && prefix in ProtectedPrefixes ==> !HasPrefix(path, prefix)
        decreases |paths|
      {
        var path :| path in paths;
        if prefix :| prefix in ProtectedPrefixes && HasPrefix(path, prefix) {
          return true;
        }
        paths := paths - {path};
      }
      return false;
    }

    method IsEligible(d: RunDir, record: ArchiveRecord, cutoff: int) returns (eligible: bool)
      ensures eligible <==> Eligible(d, record, cutoff)
    {
      if record.pinned || record.runState != "EXPORTED" || record.archivedAt > cutoff {
        return false;
      }
      var protected := PublicEvidenceProtected(d);
      return !protected;
    }

    // ----- Planning -----

    method ListRuns(repository: string) returns (ids: seq<string>)
      ensures ids == RunIDs(State(), repository)
    {
      ids := SortedSet(set key | key in active && key.repository == repository :: key.run);
    }

    /** Every run directory's references, split by whether the run is a candidate. */
    method BlobReferences(candidates: set<RunKey>) returns (ok: bool, retained: set<string>, referenced: set<string>)
      ensures ok <==> AllSealed(State())
      ensures ok ==> retained == Retained(State(), candidates) && referenced == ActiveReferences(State(), candidates)
    {
      retained, referenced := {}, {};
      var rest := active.Keys;
      while rest != {}
        invariant rest <= active.Keys
        invariant forall key :: key in active && key !in rest ==> active[key].contents.seal.Some?
        invariant forall d :: d in retained <==>
          exists key :: key in active && key !in rest && key !in candidates && d in DirReferences(active[key])
        invariant forall d :: d in referenced <==>
          exists key :: key in active && key !in rest && key in candidates && d in DirReferences(active[key])
        decreases |rest|
      {
        var key :| key in rest;
        var d := active[key];
        if d.contents.seal.None? {
          return false, {}, {};
        }
        if key in candidates {
          referenced := referenced + References(d.contents.seal.value);
        } else {
          retained := retained + References(d.contents.seal.value);
        }
        rest := rest - {key};
      }
      return true, retained, referenced;
    }

    /** The scan of one run directory. */
    method ConsiderRun(key: RunKey, cutoff: int) returns (r: Result<Option<GCCandidate>, StoreError>)
      ensures r == Consider(crypto, key, Dir(State(), key), cutoff)
    {
      var d := Dir(State(), key);
      if d.archive.None? {
        return Ok(None);
      }
      var record := d.archive.value;
      if !RecordIntact(crypto, record) || record.repository != key.repository || record.run != key.run
         || !ValidDigest(record.contentDigest) || !ValidDigest(record.lastEventHash) {
        return Err(BadArchive);
      }
      var eligible := IsEligible(d, record, cutoff);
      if !eligible {
        return Ok(None);
      }
      var verified := VerifyArchivedRun(d, record);
      return if verified then Ok(Some(CandidateOf(record))) else Err(BadArchive);
    }

    method ScanRuns(repository: string, cutoff: int) returns (r: Result<seq<GCCandidate>, StoreError>)
      ensures r == Candidates(crypto, State(), repository, cutoff, RunIDs(State(), repository))
    {
      var ids := ListRuns(repository);
      var found: seq<GCCandidate> := [];
      ghost var state, all := State(), Candidates(crypto, State(), repository, cutoff, ids);
      assert ids[0..] == ids;
      JoinedTwice([], [], all);
      for i := 0 to |ids|
        invariant all == Joined(found, Candidates(crypto, state, repository, cutoff, ids[i..]))
      {
        CandidatesStep(crypto, state, repository, cutoff, ids, i);
        var one := ConsiderRun(RunKey(repository, ids[i]), cutoff);
        if one.Err? {
          return Err(one.error);
        }
        JoinedTwice(found, Chosen(one.value), Candidates(crypto, state, repository, cutoff, ids[i + 1..]));
        found := found + Chosen(one.value);
      }
      assert ids[|ids|..] == [] && found + [] == found;
      return Ok(found);
    }

    method PlanGC(repository: string, days: int, asOf: int) returns (outcome: Outcome<GCPlan>)
      modifies this
      ensures Performed(old(State()), old(writesLeft), PlanScript(crypto, old(State()), repository, days, asOf),
                        State(), writesLeft, outcome)
    {
      if !ValidID(repository, "repo-", 32) || days < 1 || asOf == 0 {
        return Returned(Err(InvalidInput));
      }
      var scanned := ScanRuns(repository, asOf - Retention(days));
      if scanned.Err? {
        return Returned(Err(scanned.error));
      }
      var keys := set i | 0 <= i < |scanned.value| :: KeyOf(scanned.value[i]);
      var ok, retained, referenced := BlobReferences(keys);
      if !ok {
        return Returned(Err(NotFound));
      }
      var digests := SortedSet(referenced - retained);
      var plan := GCPlan(repository, asOf, days, scanned.value, digests, "");
      plan := plan.(planDigest := crypto.plan(plan));
      assert plan == NewPlan(crypto, State(), repository, days, asOf, scanned.value);
      var alive := Write(PutPlan(plan));
      return if alive then Returned(Ok(plan)) else Crashed;
    }

    // ----- Execution -----

    method CheckCandidate(plan: GCPlan, candidate: GCCandidate) returns (ok: bool)
      ensures ok <==> CandidateAccepted(crypto, State(), plan, candidate)
    {
      if candidate.repository != plan.repository || !ValidKey(KeyOf(candidate))
         || !ValidDigest(candidate.archiveDigest) || !ValidDigest(candidate.contentDigest) {
        return false;
      }
      var found := Locate(State(), plan.planDigest, KeyOf(candidate));
      if found.None? || found.value.archive.None? {
        return false;
      }
      var record := found.value.archive.value;
      if !RecordIntact(crypto, record) || record.recordDigest != candidate.archiveDigest
         || record.contentDigest != candidate.contentDigest {
        return false;
      }
      var eligible := IsEligible(found.value, record, plan.asOf - Retention(plan.retentionDays));
      if !eligible {
        return false;
      }
      ok := VerifyArchivedRun(found.value, record);
    }

    /** References of the candidates where they are now, added to those found in place. */
    method LocatedReferences(plan: GCPlan, inPlace: set<string>) returns (ok: bool, references: set<string>)
      ensures ok <==> CandidatesSealed(State(), plan)
      ensures ok && inPlace == ActiveReferences(State(), Keys(plan.candidates)) ==> references == CandidateReferences(State(), plan)
    {
      ghost var s := State();
      references := inPlace;
      for i := 0 to |plan.candidates|
        invariant forall j :: 0 <= j < i ==> LocatedSealed(s, plan, KeyOf(plan.candidates[j]))
        invariant forall d :: d in references <==> d in inPlace || exists j :: 0 <= j < i && LocatedAt(s, plan, KeyOf(plan.candidates[j]), d)
      {
        var key := KeyOf(plan.candidates[i]);
        assert key in Keys(plan.candidates);
        var found := Locate(State(), plan.planDigest, key);
        if found.Some? {
          if found.value.contents.seal.None? {
            return false, {};
          }
          references := references + References(found.value.contents.seal.value);
        }
      }
      return true, references;
    }

    method CheckPlan(plan: GCPlan) returns (ok: bool)
      ensures ok <==> PlanAccepted(crypto, State(), plan)
    {
      for i := 0 to |plan.candidates|
        invariant forall j :: 0 <= j < i ==> CandidateAccepted(crypto, State(), plan, plan.candidates[j])
      {
        var accepted := CheckCandidate(plan, plan.candidates[i]);
        if !accepted {
          return false;
        }
      }
      var keys := set i | 0 <= i < |plan.candidates| :: KeyOf(plan.candidates[i]);
      var sealed, retained, inPlace := BlobReferences(keys);
      if !sealed {
        return false;
      }
      var located, references := LocatedReferences(plan, inPlace);
      if !located {
        return false;
      }
      var expected := SortedSet(references - retained);
      return expected == plan.blobDigests;
    }

    /** Rename the runs still in place, in plan order. */
    method MoveRuns(planDigest: string, candidates: seq<GCCandidate>) returns (outcome: Outcome<()>)
      modifies this
      ensures Performed(old(State()), old(writesLeft), MoveScript(old(State()), planDigest, candidates), State(), writesLeft, outcome)
    {
      ghost var s, budget := State(), writesLeft;
      ghost var script := MoveScript(s, planDigest, candidates);
      ghost var written: seq<FileStep> := [];
      assert candidates[0..] == candidates && written + script.steps == script.steps;
      for i := 0 to |candidates|
        invariant Done(s, budget, written, State(), writesLeft)
        invariant var rest := MoveScript(State(), planDigest, candidates[i..]);
          script == Script(written + rest.steps, rest.result)
      {
        var key := KeyOf(candidates[i]);
        assert candidates[i..][1..] == candidates[i + 1..];
        if key !in active {
          continue;
        }
        if key in TrashOf(State(), planDigest) {
          assert written + [] == written;
          return Returned(Err(TargetExists));
        }
        ghost var t, left := State(), writesLeft;
        var step := MoveRun(planDigest, key);
        ghost var after := Apply(t, step);
        OneMoreStep(s, written, t, step, MoveScript(after, planDigest, candidates[i + 1..]).steps);
        var alive := Write(step);
        if !alive {
          DoneThenDiedEarlier(s, budget, written, t, left, [step], State(), script.steps);
          return Crashed;
        }
        DoneThenDone(s, budget, written, t, left, [step], State(), writesLeft);
        written := written + [step];
      }
      assert candidates[|candidates|..] == [] && written + [] == written;
      return Returned(Ok(()));
    }

    /** Delete the planned blobs still there, each after re-hashing it. */
    method DropBlobs(digests: seq<string>) returns (outcome: Outcome<()>)
      modifies this
      ensures Performed(old(State()), old(writesLeft), DropScript(crypto, old(State()), digests), State(), writesLeft, outcome)
    {
      ghost var s, budget := State(), writesLeft;
      ghost var script := DropScript(crypto, s, digests);
      ghost var written: seq<FileStep> := [];
      assert digests[0..] == digests && written + script.steps == script.steps;
      for i := 0 to |digests|
        invariant Done(s, budget, written, State(), writesLeft)
        invariant var rest := DropScript(crypto, State(), digests[i..]);
          script == Script(written + rest.steps, rest.result)
      {
        var digest := digests[i];
        assert digests[i..][1..] == digests[i + 1..];
        assert written + [] == written;
        if !ValidDigest(digest) {
          return Returned(Err(InvalidInput));
        }
        if digest !in blobs {
          continue;
        }
        if crypto.bytes(blobs[digest]) != digest {
          return Returned(Err(BlobMismatch));
        }
        ghost var t, left := State(), writesLeft;
        var step := DropBlob(digest);
        ghost var after := Apply(t, step);
        OneMoreStep(s, written, t, step, DropScript(crypto, after, digests[i + 1..]).steps);
        var alive := Write(step);
        if !alive {
          DoneThenDiedEarlier(s, budget, written, t, left, [step], State(), script.steps);
          return Crashed;
        }
        DoneThenDone(s, budget, written, t, left, [step], State(), writesLeft);
        written := written + [step];
      }
      assert digests[|digests|..] == [] && written + [] == written;
      return Returned(Ok(()));
    }

    /** All runs to trash, then the blobs, then the execution record, then the trash. */
    method Sweep(plan: GCPlan, now: int, remains: map<RunKey, RunDir>) returns (outcome: Outcome<GCExecution>)
      modifies this
      ensures Performed(old(State()), old(writesLeft), SweepScript(crypto, old(State()), plan, now, remains), State(), writesLeft, outcome)
    {
      ghost var s, budget := State(), writesLeft;
      ghost var script := SweepScript(crypto, s, plan, now, remains);
      ghost var moves := MoveScript(s, plan.planDigest, plan.candidates);
      var moved := MoveRuns(plan.planDigest, plan.candidates);
      if moved.Crashed? {
        DiedEarlier(s, budget, moves.steps, State(), script.steps[|moves.steps|..]);
        assert script.steps == moves.steps + script.steps[|moves.steps|..];
        return Crashed;
      }
      if moved.result.Err? {
        return Returned(Err(moved.result.error));
      }
      ghost var s1, left1 := State(), writesLeft;
      ghost var drops := DropScript(crypto, s1, plan.blobDigests);
      var dropped := DropBlobs(plan.blobDigests);
      if dropped.Crashed? {
        DoneThenDiedEarlier(s, budget, moves.steps, s1, left1, drops.steps, State(), script.steps);
        return Crashed;
      }
      DoneThenDone(s, budget, moves.steps, s1, left1, drops.steps, State(), writesLeft);
      if dropped.result.Err? {
        return Returned(Err(dropped.result.error));
      }
      ghost var s2, left2 := State(), writesLeft;
      var execution := ExecutionOf(plan, now);
      var alive := WriteAll([PutExecution(execution)] + PurgeSteps(plan.planDigest, remains));
      outcome := if alive then Returned(Ok(execution)) else Crashed;
      DoneThenPerformed(s, budget, moves.steps + drops.steps, s2, left2,
                        Script([PutExecution(execution)] + PurgeSteps(plan.planDigest, remains), Ok(execution)), State(), writesLeft, outcome);
      assert script.steps == moves.steps + drops.steps + ([PutExecution(execution)] + PurgeSteps(plan.planDigest, remains));
    }

    /** `remains` is what a removal of the trash that stops half way leaves of it. */
    method ExecuteGC(expected: string, now: int, remains: map<RunKey, RunDir>) returns (outcome: Outcome<GCExecution>)
      modifies this
      ensures Performed(old(State()), old(writesLeft), ExecuteScript(crypto, old(State()), expected, now, remains),
                        State(), writesLeft, outcome)
    {
      if !ValidDigest(expected) || now == 0 {
        return Returned(Err(InvalidInput));
      }
      if expected in executions {
        var completed := executions[expected];
        if completed.planDigest != expected {
          return Returned(Err(PlanMismatch));
        }
        var alive := WriteAll(PurgeSteps(expected, remains));
        return if alive then Returned(Ok(completed)) else Crashed;
      }
      if expected !in plans {
        return Returned(Err(NotFound));
      }
      var plan := plans[expected];
      if plan.planDigest != expected || crypto.plan(plan.(planDigest := "")) != expected
         || !ValidID(plan.repository, "repo-", 32) || plan.retentionDays < 1 || plan.asOf == 0 {
        return Returned(Err(PlanMismatch));
      }
      var accepted := CheckPlan(plan);
      if !accepted {
        return Returned(Err(PlanMismatch));
      }
      outcome := Sweep(plan, now, remains);
    }
  }
}
