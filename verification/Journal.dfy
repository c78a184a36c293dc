/**
 The hash-chained event journal of a run (`events.jsonl`) and the workflow state it
 derives. The event digest (SHA-256 over canonical JSON) is a parameter; where its
 injectivity matters it is a hypothesis.
 */
module Journal {
  import opened Common
  import opened Digests

  // ----- Events -----

  /** A JSON value inside an event payload, as far as the readers tell them apart. */
  datatype Value = Text(text: string) | Flag(flag: bool) | Json(encoded: string)

  type Payload = map<string, Value>

  /** What the digest covers: everything except the hash itself. */
  datatype EventBody = EventBody(
    sequence: nat, kind: string, recordedAt: int, payload: Payload, previousHash: string)

  datatype Event = Event(body: EventBody, hash: string)

  type EventDigest = EventBody -> Digest

  /** No two different events of the two journals have one digest. */
  ghost predicate EventsDoNotCollide(digest: EventDigest, a: seq<Event>, b: seq<Event>)
  {
    forall i, j :: 0 <= i < |a| && 0 <= j < |b| && digest(a[i].body) == digest(b[j].body) ==> a[i].body == b[j].body
  }

  // ----- Appending -----

  /** The event `AppendEvent` writes after `journal`; an absent or empty journal has sequence 0 and no hash. */
  function NextEvent(digest: EventDigest, journal: seq<Event>, kind: string, payload: Payload, now: int): Event
  {
    var sequence := if journal == [] then 0 else journal[|journal| - 1].body.sequence;
    var previous := if journal == [] then "" else journal[|journal| - 1].hash;
    var body := EventBody(sequence + 1, kind, now, payload, previous);
    Event(body, digest(body))
  }

  /** A request to append one event. */
  datatype Append = Append(kind: string, payload: Payload, now: int)

  function AppendAll(digest: EventDigest, journal: seq<Event>, appends: seq<Append>): seq<Event>
    decreases |appends|
  {
    if appends == [] then journal
    else
      var a := appends[0];
      AppendAll(digest, journal + [NextEvent(digest, journal, a.kind, a.payload, a.now)], appends[1..])
  }

  // ----- Chain verification -----

  /** The event is numbered from one, names its predecessor's hash and carries its own digest. */
  ghost predicate LinkedAt(digest: EventDigest, journal: seq<Event>, i: nat)
    requires i < |journal|
  {
    && journal[i].body.sequence == i + 1
    && journal[i].body.previousHash == (if i == 0 then "" else journal[i - 1].hash)
    && journal[i].hash == digest(journal[i].body)
  }

  ghost predicate Linked(digest: EventDigest, journal: seq<Event>)
  {
    forall i :: 0 <= i < |journal| ==> LinkedAt(digest, journal, i)
  }

  ghost predicate ChainValid(digest: EventDigest, journal: seq<Event>)
  {
    journal != [] && Linked(digest, journal)
  }

  lemma LinkedStep(digest: EventDigest, journal: seq<Event>, i: nat)
    requires i < |journal| && Linked(digest, journal[..i]) && LinkedAt(digest, journal, i)
    ensures Linked(digest, journal[..i + 1])
  {
    var init := journal[..i + 1];
    forall j | 0 <= j <= i ensures LinkedAt(digest, init, j) {
      if j < i { assert LinkedAt(digest, journal[..i], j); }
    }
  }

  /** The verifier's loop: it accepts exactly the non-empty, correctly linked journals. */
  method VerifyEventChain(digest: EventDigest, journal: seq<Event>) returns (ok: bool)
    ensures ok <==> ChainValid(digest, journal)
  {
    var previous, sequence := "", 0;
    for i := 0 to |journal|
      invariant sequence == i
      invariant previous == if i == 0 then "" else journal[i - 1].hash
      invariant Linked(digest, journal[..i])
    {
      var event := journal[i];
      if event.body.sequence != sequence + 1 || event.body.previousHash != previous {
        assert !LinkedAt(digest, journal, i);
        return false;
      }
      if event.hash != digest(event.body) {
        assert !LinkedAt(digest, journal, i);
        return false;
      }
      sequence, previous := event.body.sequence, event.hash;
      LinkedStep(digest, journal, i);
    }
    assert journal[..|journal|] == journal;
    return |journal| > 0;
  }

  lemma NextEventLinks(digest: EventDigest, journal: seq<Event>, kind: string, payload: Payload, now: int)
    requires Linked(digest, journal)
    ensures ChainValid(digest, journal + [NextEvent(digest, journal, kind, payload, now)])
  {
    var next := journal + [NextEvent(digest, journal, kind, payload, now)];
    if journal != [] { assert LinkedAt(digest, journal, |journal| - 1); }
    forall i | 0 <= i < |next| ensures LinkedAt(digest, next, i) {
      if i < |journal| { assert LinkedAt(digest, journal, i); }
    }
  }

  /** Any run of appends, from no file at all, leaves a chain the verifier accepts, ending in the last event returned. */
  lemma {:induction false} AppendAllKeepsChain(digest: EventDigest, journal: seq<Event>, appends: seq<Append>)
    requires Linked(digest, journal)
    ensures var final := AppendAll(digest, journal, appends);
      && Linked(digest, final)
      && |final| == |journal| + |appends| && journal <= final
      && (appends != [] ==>
            var a := appends[|appends| - 1];
            && ChainValid(digest, final)
            && final[|final| - 1] == NextEvent(digest, final[..|final| - 1], a.kind, a.payload, a.now))
    decreases |appends|
  {
    if appends != [] {
      var a := appends[0];
      var next := journal + [NextEvent(digest, journal, a.kind, a.payload, a.now)];
      NextEventLinks(digest, journal, a.kind, a.payload, a.now);
      AppendAllKeepsChain(digest, next, appends[1..]);
      if |appends| == 1 {
        assert next[..|next| - 1] == journal;
      }
    }
  }

  lemma LinkedPrefix(digest: EventDigest, journal: seq<Event>, n: nat)
    requires Linked(digest, journal) && n <= |journal|
    ensures Linked(digest, journal[..n])
  {
    var init := journal[..n];
    forall i | 0 <= i < n
      ensures LinkedAt(digest, init, i)
    {
      assert LinkedAt(digest, journal, i);
    }
  }

  /** Unless two of their events collide, accepted journals with one last hash are one journal. */
  lemma {:induction false} LastHashPinsHistory(digest: EventDigest, a: seq<Event>, b: seq<Event>)
    requires EventsDoNotCollide(digest, a, b) && ChainValid(digest, a) && ChainValid(digest, b)
    requires a[|a| - 1].hash == b[|b| - 1].hash
    ensures a == b
  {
    var lastA, lastB := a[|a| - 1], b[|b| - 1];
    assert LinkedAt(digest, a, |a| - 1) && LinkedAt(digest, b, |b| - 1);
    assert lastA.body == lastB.body;
    assert |a| == lastA.body.sequence == lastB.body.sequence == |b|;
    assert a == a[..|a| - 1] + [lastA] && b == b[..|b| - 1] + [lastB];
    if |a| > 1 {
      LinkedPrefix(digest, a, |a| - 1);
      LinkedPrefix(digest, b, |b| - 1);
      LastHashPinsHistory(digest, a[..|a| - 1], b[..|b| - 1]);
    }
  }

  // ----- The derived workflow state -----

  const Transitions: map<string, set<string>> := map[
    "PREPARED" := {"CONTRACTED", "BLOCKED"},
    "CONTRACTED" := {"REVIEWING", "BLOCKED"},
    "REVIEWING" := {"REVIEWED", "BLOCKED"},
    "REVIEWED" := {"FIX_AUTHORIZED", "GATED", "BLOCKED"},
    "FIX_AUTHORIZED" := {"MUTATED", "BLOCKED"},
    "MUTATED" := {"PREPARED", "BLOCKED"},
    "GATED" := {"REREVIEWED", "BLOCKED"},
    "REREVIEWED" := {"FINALIZED", "BLOCKED"},
    "FINALIZED" := {"EXPORTED"},
    "BLOCKED" := {"PREPARED", "REVIEWING"}
  ]

  predicate AllowedTransition(current: string, next: string)
  {
    current in Transitions && next in Transitions[current]
  }

  /** A payload decoded as an object of strings; fails when some member is not a string. */
  function StringMap(payload: Payload): Option<map<string, string>>
  {
    if forall k :: k in payload ==> payload[k].Text?
    then Some(map k | k in payload :: payload[k].text)
    else None
  }

  /** A missing key reads as the empty string. */
  function Lookup(fields: map<string, string>, key: string): string
  {
    if key in fields then fields[key] else ""
  }

  predicate BindsRun(event: Event, snapshotID: string, dataClass: string)
  {
    && event.body.kind == "run_prepared"
    && var fields := StringMap(event.body.payload);
       fields.Some? && Lookup(fields.value, "snapshot_id") == snapshotID && Lookup(fields.value, "data_class") == dataClass
  }

  /** The state after one more event; None when the event is an invalid transition. */
  function Advance(state: string, event: Event): Option<string>
  {
    if event.body.kind != "state_transition" then Some(state)
    else
      var fields := StringMap(event.body.payload);
      if fields.None? then None
      else
        var from, to := Lookup(fields.value, "from"), Lookup(fields.value, "to");
        if from != state || !AllowedTransition(state, to) then None else Some(to)
  }

  /** The state the journal derives; None when a reader rejects it. */
  function JournalState(journal: seq<Event>, snapshotID: string, dataClass: string): Option<string>
  {
    if journal == [] then None
    else if |journal| == 1 then
      if BindsRun(journal[0], snapshotID, dataClass) then Some("PREPARED") else None
    else
      var before := JournalState(journal[..|journal| - 1], snapshotID, dataClass);
      if before.None? then None else Advance(before.value, journal[|journal| - 1])
  }

  /** The reader's loop over the lines, with its `first` flag and early exits. */
  method RunJournalState(journal: seq<Event>, snapshotID: string, dataClass: string) returns (r: Option<string>)
    ensures r == JournalState(journal, snapshotID, dataClass)
  {
    var derived, first := "", true;
    for i := 0 to |journal|
      invariant first <==> i == 0
      invariant first ==> derived == ""
      invariant !first ==> derived != "" && JournalState(journal[..i], snapshotID, dataClass) == Some(derived)
    {
      var event := journal[i];
      assert journal[..i + 1][..i] == journal[..i];
      RejectionIsFinal(journal, i + 1, snapshotID, dataClass);
      if first {
        if !BindsRun(event, snapshotID, dataClass) {
          return None;
        }
        derived, first := "PREPARED", false;
      } else if event.body.kind == "state_transition" {
        var fields := StringMap(event.body.payload);
        if fields.None? {
          return None;
        }
        if Lookup(fields.value, "from") != derived || !AllowedTransition(derived, Lookup(fields.value, "to")) {
          return None;
        }
        derived := Lookup(fields.value, "to");
      }
    }
    assert journal[..|journal|] == journal;
    return if derived == "" then None else Some(derived);
  }

  /** Once a prefix is rejected no continuation is accepted. */
  lemma {:induction false} RejectionIsFinal(journal: seq<Event>, n: nat, snapshotID: string, dataClass: string)
    requires 1 <= n <= |journal|
    ensures JournalState(journal[..n], snapshotID, dataClass).None? ==> JournalState(journal, snapshotID, dataClass).None?
    decreases |journal|
  {
    if n == |journal| {
      assert journal[..n] == journal;
    } else {
      var init := journal[..|journal| - 1];
      assert init[..n] == journal[..n];
      RejectionIsFinal(init, n, snapshotID, dataClass);
    }
  }

  lemma JournalStateAppend(journal: seq<Event>, event: Event, snapshotID: string, dataClass: string)
    requires journal != []
    ensures JournalState(journal + [event], snapshotID, dataClass) ==
      var before := JournalState(journal, snapshotID, dataClass);
      if before.None? then None else Advance(before.value, event)
  {
    assert (journal + [event])[..|journal|] == journal;
  }

  // ----- What the accepted journals are -----

  /** The member is this text; a member that is not there reads as the empty text. */
  predicate Says(payload: Payload, key: string, text: string)
  {
    if key in payload then payload[key] == Text(text) else text == ""
  }

  /** Every member is a text. */
  predicate AllText(payload: Payload)
  {
    forall key :: key in payload ==> payload[key].Text?
  }

  /** The event that starts a journal, for a run of this snapshot and data class. */
  predicate Prepares(event: Event, snapshotID: string, dataClass: string)
  {
    && event.body.kind == "run_prepared" && AllText(event.body.payload)
    && Says(event.body.payload, "snapshot_id", snapshotID) && Says(event.body.payload, "data_class", dataClass)
  }

  lemma BindingPrepares(event: Event, snapshotID: string, dataClass: string)
    ensures BindsRun(event, snapshotID, dataClass) <==> Prepares(event, snapshotID, dataClass)
  {
  }

  /** The steps of the workflow. */
  const Workflow: set<(string, string)> := {
    ("PREPARED", "CONTRACTED"), ("CONTRACTED", "REVIEWING"), ("REVIEWING", "REVIEWED"),
    ("REVIEWED", "FIX_AUTHORIZED"), ("FIX_AUTHORIZED", "MUTATED"), ("MUTATED", "PREPARED"),
    ("REVIEWED", "GATED"), ("GATED", "REREVIEWED"), ("REREVIEWED", "FINALIZED"), ("FINALIZED", "EXPORTED"),
    ("PREPARED", "BLOCKED"), ("CONTRACTED", "BLOCKED"), ("REVIEWING", "BLOCKED"), ("REVIEWED", "BLOCKED"),
    ("FIX_AUTHORIZED", "BLOCKED"), ("MUTATED", "BLOCKED"), ("GATED", "BLOCKED"), ("REREVIEWED", "BLOCKED"),
    ("BLOCKED", "PREPARED"), ("BLOCKED", "REVIEWING")
  }

  lemma AllowedIsWorkflow(from: string, to: string)
    ensures AllowedTransition(from, to) <==> (from, to) in Workflow
  {
  }

  /** One state per event: prepared first, then each event keeps the state or takes one allowed transition from it. */
  ghost predicate TransitionWalk(states: seq<string>, journal: seq<Event>)
  {
    && |states| == |journal| > 0
    && states[0] == "PREPARED"
    && forall i :: 1 <= i < |journal| ==> Moves(states[i - 1], journal[i], states[i])
  }

  /** The event keeps the state, or is a transition from it to the next one that the workflow has. */
  predicate Moves(from: string, event: Event, to: string)
  {
    if event.body.kind != "state_transition" then to == from
    else
      && AllText(event.body.payload) && Says(event.body.payload, "from", from) && Says(event.body.payload, "to", to)
      && (from, to) in Workflow
  }

  lemma AdvanceMoves(from: string, event: Event, to: string)
    ensures Advance(from, event) == Some(to) <==> Moves(from, event, to)
  {
    AllowedIsWorkflow(from, to);
    if event.body.kind == "state_transition" && AllText(event.body.payload) {
      var fields := StringMap(event.body.payload).value;
      assert Says(event.body.payload, "from", Lookup(fields, "from")) && Says(event.body.payload, "to", Lookup(fields, "to"));
    }
  }

  /** A journal is accepted with a state exactly when it starts by binding the run and walks the workflow to that state. */
  lemma {:induction false} AcceptedJournalsAreWalks(journal: seq<Event>, snapshotID: string, dataClass: string, state: string)
    ensures JournalState(journal, snapshotID, dataClass) == Some(state) <==>
      && journal != [] && Prepares(journal[0], snapshotID, dataClass)
      && exists states :: TransitionWalk(states, journal) && states[|states| - 1] == state
  {
    if journal != [] { BindingPrepares(journal[0], snapshotID, dataClass); }
    if JournalState(journal, snapshotID, dataClass) == Some(state) {
      var _ := WalkOf(journal, snapshotID, dataClass);
    }
    if journal != [] && BindsRun(journal[0], snapshotID, dataClass) {
      forall states | TransitionWalk(states, journal)
        ensures JournalState(journal, snapshotID, dataClass) == Some(states[|states| - 1])
      {
        WalkIsAccepted(states, journal, snapshotID, dataClass);
      }
    }
  }

  lemma {:induction false} WalkOf(journal: seq<Event>, snapshotID: string, dataClass: string) returns (states: seq<string>)
    requires JournalState(journal, snapshotID, dataClass).Some?
    ensures TransitionWalk(states, journal) && BindsRun(journal[0], snapshotID, dataClass)
    ensures states[|states| - 1] == JournalState(journal, snapshotID, dataClass).value
  {
    if |journal| == 1 {
      states := ["PREPARED"];
    } else {
      var before := WalkOf(journal[..|journal| - 1], snapshotID, dataClass);
      states := before + [JournalState(journal, snapshotID, dataClass).value];
      AdvanceMoves(before[|before| - 1], journal[|journal| - 1], states[|states| - 1]);
      forall i | 1 <= i < |journal| ensures Moves(states[i - 1], journal[i], states[i]) {
        if i < |journal| - 1 { assert Moves(before[i - 1], journal[..|journal| - 1][i], before[i]); }
      }
    }
  }

  lemma {:induction false} WalkIsAccepted(states: seq<string>, journal: seq<Event>, snapshotID: string, dataClass: string)
    requires TransitionWalk(states, journal) && BindsRun(journal[0], snapshotID, dataClass)
    ensures JournalState(journal, snapshotID, dataClass) == Some(states[|states| - 1])
  {
    if |journal| > 1 {
      var n := |journal| - 1;
      assert Moves(states[n - 1], journal[n], states[n]);
      AdvanceMoves(states[n - 1], journal[n], states[n]);
      forall i | 1 <= i < n ensures Moves(states[..n][i - 1], journal[..n][i], states[..n][i]) {
        assert Moves(states[i - 1], journal[i], states[i]);
      }
      WalkIsAccepted(states[..n], journal[..n], snapshotID, dataClass);
    }
  }

  // ----- The way to an exported run -----

  /** Before the walk was in a state, it was in the only one that leads there. */
  lemma {:induction false} CameFrom(states: seq<string>, journal: seq<Event>, n: nat, from: string, to: string) returns (k: nat)
    requires TransitionWalk(states, journal) && n < |states| && states[n] == to != "PREPARED"
    requires forall other :: (other, to) in Workflow ==> other == from
    ensures k < n && states[k] == from
  {
    assert n > 0;
    assert Moves(states[n - 1], journal[n], states[n]);
    if states[n - 1] == to {
      k := CameFrom(states, journal, n - 1, from, to);
    } else {
      k := n - 1;
    }
  }

  /** A journal that derives EXPORTED has gone through review, gates, second review and finalization, in that order. */
  lemma ExportedWasReviewed(journal: seq<Event>, snapshotID: string, dataClass: string, states: seq<string>)
    returns (reviewed: nat, gated: nat, rereviewed: nat, finalized: nat)
    requires TransitionWalk(states, journal) && states[|states| - 1] == "EXPORTED"
    ensures reviewed < gated < rereviewed < finalized < |states|
    ensures states[reviewed] == "REVIEWED" && states[gated] == "GATED" && states[rereviewed] == "REREVIEWED" && states[finalized] == "FINALIZED"
  {
    finalized := CameFrom(states, journal, |states| - 1, "FINALIZED", "EXPORTED");
    rereviewed := CameFrom(states, journal, finalized, "REREVIEWED", "FINALIZED");
    gated := CameFrom(states, journal, rereviewed, "GATED", "REREVIEWED");
    reviewed := CameFrom(states, journal, gated, "REVIEWED", "GATED");
  }
}
