/**
 What a collection plans, checks and records, member by member: which runs a plan selects and how
 it describes them, every condition of an execution, and what its record says.
 */
module GCContents {
  import opened Common
  import opened Digests
  import opened Ordering
  import opened Journal
  import opened RunStore
  import opened StoreSafety
  import opened StoreTheorems
  import opened GCResume
  import opened GCInterleaving

  // ----- Runs and blobs -----

  /** The run may be collected: exported, unpinned, archived in time, and without public-export evidence. */
  ghost predicate MayGo(d: RunDir, latest: int)
  {
    && d.archive.Some? && !d.archive.value.pinned && d.archive.value.runState == "EXPORTED" && d.archive.value.archivedAt <= latest
    && !KeepsEvidence(d)
  }

  lemma EligibleMayGo(d: RunDir, latest: int)
    ensures d.archive.Some? && Eligible(d, d.archive.value, latest) <==> MayGo(d, latest)
  {
    EvidenceIsKept(d);
  }

  /** The run's snapshot names the blob, as a current or as a previous file. */
  ghost predicate Names(d: RunDir, digest: string)
  {
    && d.contents.seal.Some? && ValidDigest(digest)
    && exists i :: 0 <= i < |d.contents.seal.value.entries| &&
         (d.contents.seal.value.entries[i].current == digest || d.contents.seal.value.entries[i].previous == digest)
  }

  lemma ReferencesAreNames(d: RunDir, digest: string)
    ensures digest in DirReferences(d) <==> Names(d, digest)
  {
  }

  // ----- What a plan says -----

  /** The candidate describes an archived run of the repository by its two digests. */
  ghost predicate Describes(s: StoreState, repository: string, candidate: GCCandidate)
  {
    var key := RunKey(repository, candidate.run);
    && candidate.repository == repository && key in s.active && s.active[key].archive.Some?
    && candidate.archiveDigest == s.active[key].archive.value.recordDigest
    && candidate.contentDigest == s.active[key].archive.value.contentDigest
  }

  /** The scan of one archived run: refused when its record does not hold, taken when it may go, passed over otherwise. */
  lemma ConsideredExactly(c: Crypto, key: RunKey, d: RunDir, latest: int)
    ensures var r := Consider(c, key, d, latest);
      && (r.Err? <==> d.archive.Some? && (!RecordHolds(c, key, d.archive.value) || (MayGo(d, latest) && !ArchiveVerified(c, d, d.archive.value))))
      && (r.Ok? ==> (r.value.Some? <==> MayGo(d, latest)))
  {
    EligibleMayGo(d, latest);
  }

  /** The record is of this run, carries digests, and is sealed by its own. */
  predicate RecordHolds(c: Crypto, key: RunKey, record: ArchiveRecord)
  {
    && record.repository == key.repository && record.run == key.run
    && ValidDigest(record.contentDigest) && ValidDigest(record.lastEventHash)
    && record.recordDigest == c.record(record.(recordDigest := ""))
  }

  lemma ConsideredDescribes(c: Crypto, s: StoreState, repository: string, latest: int, candidates: seq<GCCandidate>)
    requires AllConsidered(c, s, repository, latest, candidates)
    ensures forall i :: 0 <= i < |candidates| ==> Describes(s, repository, candidates[i])
  {
    forall i | 0 <= i < |candidates| ensures Describes(s, repository, candidates[i]) {
      assert Considered(c, s, repository, latest, candidates[i]);
    }
  }

  /** One candidate a run, in the order of the runs' names. */
  ghost predicate InOrder(candidates: seq<GCCandidate>)
  {
    forall i, j :: 0 <= i < j < |candidates| ==> candidates[i].run != candidates[j].run && StringLE(candidates[i].run, candidates[j].run)
  }

  lemma {:induction false} CandidatesInOrder(c: Crypto, s: StoreState, repository: string, latest: int, ids: seq<string>)
    requires RunsOK(c, s) && Candidates(c, s, repository, latest, ids).Ok? && SortedBy(StringLE, ids) && Distinct(ids)
    ensures var candidates := Candidates(c, s, repository, latest, ids).value;
      InOrder(candidates) && forall i :: 0 <= i < |candidates| ==> candidates[i].run in ids
    decreases |ids|
  {
    if ids != [] {
      CandidatesInOrder(c, s, repository, latest, ids[1..]);
      var key := RunKey(repository, ids[0]);
      var first, rest := Consider(c, key, Dir(s, key), latest), Candidates(c, s, repository, latest, ids[1..]).value;
      if first.value.Some? {
        FirstInOrder(first.value.value, rest, ids);
      }
    }
  }

  lemma FirstInOrder(first: GCCandidate, rest: seq<GCCandidate>, ids: seq<string>)
    requires ids != [] && first.run == ids[0] && SortedBy(StringLE, ids) && Distinct(ids)
    requires InOrder(rest) && forall i :: 0 <= i < |rest| ==> rest[i].run in ids[1..]
    ensures InOrder([first] + rest) && forall i :: 0 <= i < |[first] + rest| ==> ([first] + rest)[i].run in ids
  {
    var all := [first] + rest;
    forall i | 0 <= i < |rest| ensures rest[i].run in ids && rest[i].run != ids[0] && StringLE(ids[0], rest[i].run) {
      var k :| 0 <= k < |ids[1..]| && ids[1..][k] == rest[i].run;
      assert ids[k + 1] == rest[i].run;
    }
    forall i, j | 0 <= i < j < |all| ensures all[i].run != all[j].run && StringLE(all[i].run, all[j].run) {
      assert all[j] == rest[j - 1];
      if i > 0 { assert all[i] == rest[i - 1]; }
    }
  }

  lemma RunIDsInOrder(s: StoreState, repository: string)
    ensures SortedBy(StringLE, RunIDs(s, repository)) && Distinct(RunIDs(s, repository))
  {
    ListingOf(set key | key in s.active && key.repository == repository :: key.run);
  }

  lemma ScanInOrder(c: Crypto, s: StoreState, repository: string, latest: int, ids: seq<string>, candidates: seq<GCCandidate>)
    requires RunsOK(c, s) && Candidates(c, s, repository, latest, ids) == Ok(candidates) && SortedBy(StringLE, ids) && Distinct(ids)
    ensures InOrder(candidates)
  {
    CandidatesInOrder(c, s, repository, latest, ids);
  }

  lemma RecordedScanInOrder(c: Crypto, s: StoreState, repository: string, days: int, asOf: int, candidates: seq<GCCandidate>)
    requires RunsOK(c, s)
    requires Candidates(c, s, repository, asOf - Retention(days), RunIDs(s, repository)) == Ok(candidates)
    ensures InOrder(candidates)
  {
    RunIDsInOrder(s, repository);
    ScanInOrder(c, s, repository, asOf - Retention(days), RunIDs(s, repository), candidates);
  }

  lemma PlannedInOrder(c: Crypto, s: StoreState, repository: string, days: int, asOf: int, plan: GCPlan)
    requires RunsOK(c, s) && PlanScript(c, s, repository, days, asOf).result == Ok(plan)
    ensures InOrder(plan.candidates)
  {
    RecordedScanInOrder(c, s, repository, days, asOf, plan.candidates);
  }

  /** A plan repeats what it was asked, describes exactly the runs that may go, in the order of their names, and lists the blobs that only they name. */
  ghost predicate PlanSays(c: Crypto, s: StoreState, repository: string, days: int, asOf: int, plan: GCPlan)
  {
    && plan.repository == repository && plan.retentionDays == days && plan.asOf == asOf
    && (forall i :: 0 <= i < |plan.candidates| ==> Describes(s, repository, plan.candidates[i])) && InOrder(plan.candidates)
    && (forall key :: key in Keys(plan.candidates) <==> key in s.active && key.repository == repository && MayGo(s.active[key], asOf - Retention(days)))
    && SortedBy(StringLE, plan.blobDigests) && Distinct(plan.blobDigests)
    && (forall d :: d in plan.blobDigests <==>
          && (exists key :: key in s.active && key in Keys(plan.candidates) && Names(s.active[key], d))
          && !exists key :: key in s.active && key !in Keys(plan.candidates) && Names(s.active[key], d))
    && plan.planDigest == c.plan(plan.(planDigest := ""))
  }

  lemma PlanBlobsSay(c: Crypto, s: StoreState, repository: string, days: int, asOf: int, plan: GCPlan)
    requires PlanScript(c, s, repository, days, asOf).result == Ok(plan)
    ensures SortedBy(StringLE, plan.blobDigests) && Distinct(plan.blobDigests)
    ensures forall d :: d in plan.blobDigests <==>
      && (exists key :: key in s.active && key in Keys(plan.candidates) && Names(s.active[key], d))
      && !exists key :: key in s.active && key !in Keys(plan.candidates) && Names(s.active[key], d)
  {
    ListingOf(ActiveReferences(s, Keys(plan.candidates)) - Retained(s, Keys(plan.candidates)));
    forall key, d | key in s.active ensures d in DirReferences(s.active[key]) <==> Names(s.active[key], d) {
      ReferencesAreNames(s.active[key], d);
    }
    forall d ensures d in plan.blobDigests <==>
      && (exists key :: key in s.active && key in Keys(plan.candidates) && Names(s.active[key], d))
      && !exists key :: key in s.active && key !in Keys(plan.candidates) && Names(s.active[key], d)
    {
      PlanRemovesExactly(c, s, repository, days, asOf, plan, d);
    }
  }

  /** Planning on a good store succeeds exactly for a repository, a positive number of days and a time, when every run has its snapshot. */
  lemma PlannedRuns(c: Crypto, s: StoreState, repository: string, days: int, asOf: int)
    requires RunsOK(c, s)
    ensures var script := PlanScript(c, s, repository, days, asOf);
      && (script.result.Ok? <==>
            ValidID(repository, "repo-", 32) && days >= 1 && asOf != 0 && forall key :: key in s.active ==> s.active[key].contents.seal.Some?)
      && (script.result.Ok? ==>
            PlanSays(c, s, repository, days, asOf, script.result.value) && script.steps == [PutPlan(script.result.value)])
  {
    var script := PlanScript(c, s, repository, days, asOf);
    if ValidID(repository, "repo-", 32) && days >= 1 && asOf != 0 {
      PlanningSucceeds(c, s, repository, days, asOf);
    }
    if script.result.Ok? {
      var plan := script.result.value;
      PlannedConsidered(c, s, repository, days, asOf, plan);
      ConsideredDescribes(c, s, repository, asOf - Retention(days), plan.candidates);
      PlanSelectsExactly(c, s, repository, days, asOf, plan);
      PlanBlobsSay(c, s, repository, days, asOf, plan);
      PlannedInOrder(c, s, repository, days, asOf, plan);
      forall key ensures key in Keys(plan.candidates) <==>
        key in s.active && key.repository == repository && MayGo(s.active[key], asOf - Retention(days))
      {
        if key in s.active { EligibleMayGo(s.active[key], asOf - Retention(days)); }
        assert key in Keys(plan.candidates) <==> Selectable(s, repository, asOf - Retention(days), key);
      }
      assert plan.(planDigest := "") == GCPlan(repository, asOf, days, plan.candidates, plan.blobDigests, "");
    }
  }

  // ----- What an execution checks -----

  /** The directory is the archived run the candidate describes: record and files carry its digests, the journal ends with the archive event, and it may go. */
  ghost predicate StillDescribes(c: Crypto, d: RunDir, candidate: GCCandidate, latest: int)
  {
    && MayGo(d, latest)
    && var record := d.archive.value;
    && record.recordDigest == candidate.archiveDigest && c.record(record.(recordDigest := "")) == candidate.archiveDigest
    && record.contentDigest == candidate.contentDigest && c.contents(d.contents) == candidate.contentDigest
    && d.contents.journal.Some? && ChainValid(c.event, d.contents.journal.value)
    && var last := d.contents.journal.value[|d.contents.journal.value| - 1];
    && last.body.kind == "run_archived" && last.hash == record.lastEventHash && last.body.recordedAt == record.archivedAt
    && DecodeFacts(last.body.payload) == Some(ArchiveFacts(record.pinned, record.reason, record.runState))
  }

  /** The run, in its place or else in the plan's trash. */
  ghost predicate FoundAt(s: StoreState, p: string, key: RunKey, d: RunDir)
  {
    if key in s.active then d == s.active[key] else p in s.trash && key in s.trash[p] && d == s.trash[p][key]
  }

  ghost predicate CandidateHolds(c: Crypto, s: StoreState, plan: GCPlan, candidate: GCCandidate)
  {
    && candidate.repository == plan.repository && ValidID(candidate.repository, "repo-", 32) && ValidID(candidate.run, "run-", 24)
    && ValidDigest(candidate.archiveDigest) && ValidDigest(candidate.contentDigest)
    && exists d :: FoundAt(s, plan.planDigest, RunKey(candidate.repository, candidate.run), d)
                   && StillDescribes(c, d, candidate, plan.asOf - Retention(plan.retentionDays))
  }

  lemma CandidateAcceptedHolds(c: Crypto, s: StoreState, plan: GCPlan, candidate: GCCandidate)
    ensures CandidateAccepted(c, s, plan, candidate) <==> CandidateHolds(c, s, plan, candidate)
  {
    var found := Locate(s, plan.planDigest, KeyOf(candidate));
    if found.Some? {
      EligibleMayGo(found.value, plan.asOf - Retention(plan.retentionDays));
      assert FoundAt(s, plan.planDigest, RunKey(candidate.repository, candidate.run), found.value);
      DescribedExactly(c, s, plan, candidate, found.value);
    }
  }

  lemma DescribedExactly(c: Crypto, s: StoreState, plan: GCPlan, candidate: GCCandidate, d: RunDir)
    requires Locate(s, plan.planDigest, KeyOf(candidate)) == Some(d)
    requires d.archive.Some? && Eligible(d, d.archive.value, plan.asOf - Retention(plan.retentionDays)) <==>
             MayGo(d, plan.asOf - Retention(plan.retentionDays))
    ensures CandidateAccepted(c, s, plan, candidate) <==> CandidateHolds(c, s, plan, candidate)
  {
    if CandidateHolds(c, s, plan, candidate) {
      var e :| FoundAt(s, plan.planDigest, RunKey(candidate.repository, candidate.run), e)
               && StillDescribes(c, e, candidate, plan.asOf - Retention(plan.retentionDays));
      assert e == d;
    }
    if CandidateAccepted(c, s, plan, candidate) {
      assert FoundAt(s, plan.planDigest, RunKey(candidate.repository, candidate.run), d);
      assert StillDescribes(c, d, candidate, plan.asOf - Retention(plan.retentionDays));
    }
  }

  /** The plan lists, sorted and once each, the blobs that a candidate's snapshot names, wherever it is, and that of no other run. */
  ghost predicate ListsBlobs(s: StoreState, plan: GCPlan)
  {
    && SortedBy(StringLE, plan.blobDigests) && Distinct(plan.blobDigests)
    && forall d :: d in plan.blobDigests <==> CandidateNames(s, plan, d) && !OtherNames(s, plan, d)
  }

  ghost predicate CandidateNames(s: StoreState, plan: GCPlan, digest: string)
  {
    exists key, d :: key in Keys(plan.candidates) && FoundAt(s, plan.planDigest, key, d) && Names(d, digest)
  }

  ghost predicate OtherNames(s: StoreState, plan: GCPlan, digest: string)
  {
    exists key :: key in s.active && key !in Keys(plan.candidates) && Names(s.active[key], digest)
  }

  lemma CandidateReferencesAreNames(s: StoreState, plan: GCPlan, digest: string)
    ensures digest in CandidateReferences(s, plan) <==> CandidateNames(s, plan, digest)
  {
    CandidateReferencesAreLocated(s, plan);
    if CandidateNames(s, plan, digest) {
      var key, d :| key in Keys(plan.candidates) && FoundAt(s, plan.planDigest, key, d) && Names(d, digest);
      ReferencesAreNames(d, digest);
      assert Locate(s, plan.planDigest, key) == Some(d);
    }
    if digest in LocatedReferences(s, plan) {
      var key :| key in Keys(plan.candidates) && Locate(s, plan.planDigest, key).Some?
                 && digest in DirReferences(Locate(s, plan.planDigest, key).value);
      ReferencesAreNames(Locate(s, plan.planDigest, key).value, digest);
      assert FoundAt(s, plan.planDigest, key, Locate(s, plan.planDigest, key).value);
    }
  }

  lemma RetainedAreNames(s: StoreState, plan: GCPlan, digest: string)
    ensures digest in Retained(s, Keys(plan.candidates)) <==> OtherNames(s, plan, digest)
  {
    if OtherNames(s, plan, digest) {
      var key :| key in s.active && key !in Keys(plan.candidates) && Names(s.active[key], digest);
      ReferencesAreNames(s.active[key], digest);
    }
    if digest in Retained(s, Keys(plan.candidates)) {
      var key :| key in s.active && key !in Keys(plan.candidates) && digest in DirReferences(s.active[key]);
      ReferencesAreNames(s.active[key], digest);
    }
  }

  lemma ListedExactly(xs: seq<string>, members: set<string>)
    ensures xs == Listing(members) <==> SortedBy(StringLE, xs) && Distinct(xs) && forall d :: d in xs <==> d in members
  {
    ListingOf(members);
    ListingMembers(members);
    if SortedBy(StringLE, xs) && Distinct(xs) && forall d :: d in xs <==> d in members {
      assert Elements(xs) == members;
      ListingUnique(members, xs);
      SortedStringsUnique(xs, xs);
    }
  }

  lemma BlobsListed(s: StoreState, plan: GCPlan)
    ensures ExpectedBlobs(s, plan) == plan.blobDigests <==> ListsBlobs(s, plan)
  {
    var expected := CandidateReferences(s, plan) - Retained(s, Keys(plan.candidates));
    ListedExactly(plan.blobDigests, expected);
    forall d ensures d in expected <==> CandidateNames(s, plan, d) && !OtherNames(s, plan, d) {
      CandidateReferencesAreNames(s, plan, d);
      RetainedAreNames(s, plan, d);
    }
  }

  /** Every check of an execution that is not recorded. */
  ghost predicate PlanHolds(c: Crypto, s: StoreState, plan: GCPlan)
  {
    && c.plan(plan.(planDigest := "")) == plan.planDigest
    && ValidID(plan.repository, "repo-", 32) && plan.retentionDays >= 1 && plan.asOf != 0
    && (forall i :: 0 <= i < |plan.candidates| ==> CandidateHolds(c, s, plan, plan.candidates[i]))
    && (forall key :: key in s.active ==> s.active[key].contents.seal.Some?)
    && ListsBlobs(s, plan)
  }

  lemma AcceptedHolds(c: Crypto, s: StoreState, plan: GCPlan)
    requires StoreOK(c, s) && plan.planDigest in s.plans && s.plans[plan.planDigest] == plan && plan.planDigest !in s.executions
    ensures PlanIntact(c, plan, plan.planDigest) && PlanAccepted(c, s, plan) <==> PlanHolds(c, s, plan)
  {
    forall i | 0 <= i < |plan.candidates|
      ensures CandidateAccepted(c, s, plan, plan.candidates[i]) <==> CandidateHolds(c, s, plan, plan.candidates[i])
    {
      CandidateAcceptedHolds(c, s, plan, plan.candidates[i]);
    }
    BlobsListed(s, plan);
    if AllSealed(s) {
      TrashedAreSealed(c, s, plan);
    }
  }

  lemma TrashedAreSealed(c: Crypto, s: StoreState, plan: GCPlan)
    requires StoreOK(c, s) && AllSealed(s) && plan.planDigest !in s.executions
    ensures CandidatesSealed(s, plan)
  {
    forall key | key in Keys(plan.candidates) && Locate(s, plan.planDigest, key).Some?
      ensures Locate(s, plan.planDigest, key).value.contents.seal.Some?
    {
      if key !in s.active {
        assert TrashEntryOK(c, s, plan.planDigest, key, s.trash[plan.planDigest][key]);
      }
    }
  }

  /**
   On a good store an execution succeeds exactly when it is recorded already or its plan is stored and
   holds, and its record gives the plan, the time, and the numbers of runs and blobs removed.
   */
  lemma ExecutesExactly(c: Crypto, s: StoreState, p: string, now: int, remains: map<RunKey, RunDir>)
    requires StoreOK(c, s)
    ensures var result := ExecuteScript(c, s, p, now, remains).result;
      && (result.Ok? <==> ValidDigest(p) && now != 0 && (p in s.executions || (p in s.plans && PlanHolds(c, s, s.plans[p]))))
      && (result.Ok? ==>
            result.value == (if p in s.executions then s.executions[p]
                             else GCExecution(p, now, |s.plans[p].candidates|, |s.plans[p].blobDigests|)))
  {
    if ValidDigest(p) && now != 0 && p !in s.executions && p in s.plans {
      var plan := s.plans[p];
      AcceptedHolds(c, s, plan);
      if PlanIntact(c, plan, p) && PlanAccepted(c, s, plan) {
        AcceptedPlanExecutes(c, s, plan, now, remains);
      }
    }
  }
}
