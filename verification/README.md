# DiffDossier: verified model

A Dafny model of the parts of DiffDossier that decide whether a review can be trusted, with
proofs of what they keep:

- **The run store** (`internal/store`). Each run is a directory with a hash-chained event
  journal used as a write-ahead log, a `run.json` that may lag it, and content-addressed blobs
  shared between runs. Runs are archived, and a two-phase collector plans, moves runs to a trash
  directory, deletes blobs, records the execution and empties the trash. Every operation is a
  list of atomic file steps, and a crash is a stop between two steps, so the theorems range over
  every history of operations in which any call may stop after any number of its writes.
  `Store.dfy` is the same operations as methods of an object with a write budget that may run
  out anywhere; each method is proved to carry out a prefix of its list of steps.
- **The review pipeline.** The planner that groups, sorts and slices changed entries into tasks;
  the fixpoint that decides what to review again; validation of results that a provider
  returned; the result index; recording, alone and in batches; the comparison of passes; the
  finding ledger; and the verdict. `ReadyProofs.dfy` joins them: what `ready` means end to end.
- **The gate graph.** The depth-first search that validates the configuration, the selection by
  glob and its closure over dependencies, the topological order, and the runner with its cache,
  freshness guards and early exits.
- **Codecs.** The configuration text (quoting, comments, lists, whole documents) and the byte
  streams that are hashed.

Conventions. SHA-256 and JSON encodings are function parameters. Digests have finitely many
values, so no theorem assumes that a digest is injective: where collisions would matter, a
hypothesis says that the values compared do not collide (`Journal.EventsDoNotCollide` for the events
of two journals, `RunStore.PlansWithoutCollision` for a new plan and the stored ones,
`PlannerProofs.TasksDoNotCollide` for the tasks of one plan, `RecordingWrites.NewPaths` for the names
of result files).
Clocks, random identifiers, directory listings, the executor and the freshness guards are inputs
or arbitrary answers. Strings are sequences of characters; lengths and orders agree with the
program's byte strings on ASCII text. Ranging over a Go map is an arbitrary choice of the next
key. `sort.Slice` is specified as any sorted permutation, because it is unstable; `sort.Strings`
has one answer and is a function. A missing or `null` JSON array is `None`.

Files: `Common`, `Ordering`, `Sequences` (shared definitions); `Journal`, `RunStore`, `StoreSafety`,
`StoreOperations`, `StoreTheorems`, `StrayDirectories`, `GCResume`, `GCInterleaving`,
`StoreContents`, `GCContents`, `StoreWitnesses`, `Store` (the run store); `Planner`,
`PlannerProofs`, `PlanContents`, `Invalidation`, `InvalidationProofs`, `ReloadContents` (planning);
`Results`, `ResultContents`, `ResultIndex`, `IndexContents`, `Findings`, `Recording`,
`RecordingContents`, `RecordingWrites`, `Compare`, `ComparisonContents`, `Reporting`,
`Verification`, `ReadyProofs`, `ReadyGates`, `ReadyFindings` (results and the verdict);
`GateSearch`, `GateConfig`, `Glob`, `GatePlan`, `GateContents`, `GateRunner` (gates); `Quoting`,
`QuotingContents`, `ConfigText`, `ConfigDocument`, `ConfigWriting`, `ConfigAcceptance`, `Encoding`
(codecs). The files named `...Contents` say what the values a part computes hold, member by member
and in words of their own, and `ConfigAcceptance` says so of the configuration loader and
`QuotingContents` of quoted strings: each method is proved against a function, and these lemmas
against the function.

Where the code and what one would expect of it differ, the model follows the code:

- `RecoverRun` takes the run's lock before it reads anything, and taking a lock makes the directories
  above it, so recovering a run that is not there leaves an empty directory under `runs/`. A run that
  crashed before its snapshot was written leaves a like one. Such a directory is never filled and
  never removed (`StrayDirectories.UnsealedStays`), and while it is there no repository can plan a
  collection. `StrayDirectories.PlanningStaysPossible` and `PlanningAfterRecover` are the exact
  conditions, and `StoreWitnesses.StrandedRunReached` is a history from the empty store that leaves an
  archived run in the trash of a plan that can never be executed.
- A collection that crashed after a rename cannot always be repeated, though its runs are already in
  the trash. As long as no other plan is executed, repeating it succeeds exactly when it was recorded,
  or no such directory was left and no run references a planned blob
  (`GCInterleaving.RetryAmongOtherWork`). A new run over one unchanged file is enough to prevent it:
  `StoreWitnesses.SharedBlobReached` is that history from the empty store, and `SharingBlocksRetry`
  says that the plan stays refused, and the archived run in its trash, for as long as no other plan
  collects the new run. `GCInterleaving.RetryExactly` adds the executions of other plans: they prevent
  the retry when they take a candidate, or the last run that kept a blob the plan meant to keep.
- Recording writes the index before the finding ledger. `RecordingWrites.CrashedRecordingHolds` says
  exactly when a recording that stops loses findings, `CrashedRecordingIsFinal` that they cannot be
  recorded again, and `ReadyFindings.CrashHidesCriticalFinding` is a verified run that is `ready`
  although a recorded critical finding is open. `ReadyFindings.ReadySettlesRecordedFindings` is what
  `ready` means as long as no finding was lost.
- `UpdateRunStateHeld` never re-reads the journal. `StoreTheorems.UpdateNeedsTheGuard` proves
  that the journal it extends stays accepted exactly when `run.json` was at the journal's state,
  which is what the `LoadRun` call before it checks; `StoreWitnesses.UnguardedUpdateBreaksJournal`
  reaches a state where an update without that call is allowed and breaks the journal.
- The retention interval is computed in 64-bit nanoseconds and wraps for more than 106751 days;
  `StoreWitnesses.RetentionHonoured` is the exact condition for plans to honour it.
- `**` does not match a newline; `Glob.TextsMeanGlobsExactly` says that the written patterns mean
  their globs exactly on the paths without one.
- The configuration scanner refuses a line of 64 KiB or more, so a starter document loads back exactly
  when its baseline line is shorter (`ConfigWriting.DocumentLoadsBack`).
- The unique findings that `Compare` lists depend on the order of its inputs exactly when two of them
  share a pass identifier and list different findings (`Compare.OrderShowsExactly`);
  `RepeatedPassShowsOrder` is a pair that does. Its callers compare results of one task out of a
  verified index, where no two do (`RecordedComparisonIsSymmetric`, `NewComparisonIsSymmetric`).
- The stream hashed for a run's tree separates by NUL without escaping. Paths and digests hold no NUL,
  so it is injective on what the store hashes (`Encoding.TreeStreamInjective`).

## Model

| member | source | states |
|---|---|---|
| Journal.VerifyEventChain | internal/store/store.go:448-485 | the loop accepts exactly the non-empty journals in which every event has the next sequence number, its predecessor's hash and its own digest |
| Journal.AppendAllKeepsChain | internal/store/store.go:404-446 | any sequence of appends, from no file or from an intact journal, leaves an accepted journal that extends the old one and whose last event is the one just returned |
| Journal.LastHashPinsHistory | internal/store/store.go:740-754 | two accepted journals with equal final hashes are the same sequence, unless two of their events collide |
| Journal.RunJournalState | internal/store/store.go:498-543 | the loop computes the derived state, or rejects |
| Journal.AcceptedJournalsAreWalks | internal/store/store.go:772-786 | a journal is accepted at a state exactly when its first event prepares the run, with its snapshot and a matching data class, and some walk through the transition table explains every event and ends there |
| Journal.AllowedIsWorkflow | internal/store/store.go:772-786 | the table allows exactly the steps of the workflow, written out as pairs of states |
| Journal.ExportedWasReviewed | internal/store/store.go:772-786 | a journal that derives EXPORTED has gone through REVIEWED, GATED, REREVIEWED and FINALIZED, in that order |
| Journal.RejectionIsFinal | internal/store/store.go:498-543 | appending can never repair a rejected journal |
| StoreSafety.SafeStepKeepsStoreOK | internal/store/retention.go:316-365 | each kind of file step keeps the store invariant under the condition that the order of writes guarantees |
| StoreSafety.SafeScriptKeepsStoreOK | internal/store/store.go:170-184 | stopping a safe list of steps anywhere leaves a good store |
| StoreOperations.BeginSafe | internal/store/store.go:134-186 | preparing a run writes every blob before the event that makes the run journaled, so each prefix of its writes is safe |
| StoreOperations.UpdateSafe | internal/store/store.go:377-402 | a guarded state update is safe at every step and leaves the run loadable at the new state |
| StoreOperations.RecoverSafe | internal/store/store.go:547-591 | recovery is safe at every step, and so is the directory it makes for a run that is not there |
| StoreOperations.ArchiveSafe | internal/store/retention.go:63-147 | archiving is safe at every step, on both the fresh and the resumed branch |
| StoreOperations.PlanSafe | internal/store/retention.go:149-225 | planning a collection is safe at every step |
| StoreOperations.SweepSafe | internal/store/retention.go:316-365 | moving every candidate before deleting any blob, and recording before emptying the trash, is safe at every step |
| StoreOperations.ExecuteSafe | internal/store/retention.go:227-366 | executing a plan is safe at every step, first call or retry |
| StoreOperations.AcceptedBlobs | internal/store/retention.go:292-314 | an accepted plan deletes exactly the blobs its candidates reference and no remaining run does |
| StoreOperations.ReplayKeepsStoreOK | internal/store/store.go:134-186 | every history of operations, each stopping after any number of writes, recoveries of absent and collected runs among them, keeps the store invariant |
| StoreTheorems.ReachableBlobsPresent | internal/store/retention.go:292-351 | in every reachable state each journaled run under the repositories has every blob its snapshot names, intact |
| StoreTheorems.ReachableJournalsAccepted | internal/store/store.go:377-402 | in every reachable state a journal is accepted and `run.json` is at its state or one allowed transition behind |
| StoreTheorems.RecoveryRestoresEquality | internal/store/store.go:547-591 | echoing the journal's state always recovers, and the run loads at that state even if recovery crashes after its first write |
| StoreTheorems.UpdateNeedsTheGuard | internal/store/store.go:385-401 | the updated journal is accepted exactly when `run.json` was at the journal's state before |
| StoreTheorems.ArchivedRunsAreImmutable | internal/store/store.go:788-794 | after any history an archived directory is unchanged, in place or in a trash, or was collected by a plan that names it |
| StoreTheorems.HeldBackRunsStay | internal/store/retention.go:187-199 | an archived run that is pinned, not exported or holds public-export evidence is in its place and unchanged after any history, whatever plans are executed |
| StoreTheorems.ArchiveStaysVerified | internal/store/retention.go:389-413 | once archiving succeeds the verifier accepts that directory against that record, and the directory stays as it is after any history |
| StoreTheorems.ArchivedRunsRefuseWrites | internal/store/store.go:547-591 | commands and a second archiving are refused on an archived run, and recovery is a no-op |
| StoreTheorems.ArchiveResumes | internal/store/retention.go:109-146 | a crash between the archive event and the record is completed by repeating the call, with the same record and no second event |
| StoreTheorems.PlanSelectsExactly | internal/store/retention.go:168-209 | a plan selects exactly the archived, exported, unpinned, unprotected runs of its repository past the cutoff |
| StoreTheorems.PlanRemovesExactly | internal/store/retention.go:210-219 | a plan removes exactly the blobs that a selected run references and no other run of any repository does |
| StoreTheorems.PlanningSucceeds | internal/store/retention.go:149-225 | on a good store planning succeeds exactly when every run directory has a snapshot |
| StrayDirectories.UnsealedStays | internal/store/retention.go:479-507 | a directory without a snapshot stays where it is and without one after any history, and no execution is recorded beside it |
| StrayDirectories.SealedExactly | internal/store/store.go:547-556 | over any history every run directory keeps a snapshot exactly when no attempt recovered an absent run or died in its first two writes of starting one |
| StrayDirectories.PlanningStaysPossible | internal/store/retention.go:149-225 | after any history planning works, for every repository alike, exactly when no attempt left such a directory |
| StrayDirectories.PlanningAfterRecover | internal/store/store.go:547-556 | after one call of recovery planning works exactly when the run's directory was there before |
| StrayDirectories.StrayBlocksCollection | internal/store/retention.go:479-507 | once such a directory is left, whatever follows, no repository plans and no unrecorded plan is executed |
| GCResume.RetriesStayMidway | internal/store/retention.go:316-365 | any number of crashed executions of a plan leave the store between its start and its end |
| GCResume.RetryCompletes | internal/store/retention.go:237-249 | after any crashed executions, calling again succeeds and leaves exactly the runs and blobs of an uninterrupted execution |
| GCResume.RepeatIsIdempotent | internal/store/retention.go:237-246 | executing a finished plan again changes nothing and returns the recorded execution |
| GCResume.FreshPlanExecutes | internal/store/retention.go:263-314 | a plan executed on the state it was made from passes every check and sweeps |
| GCInterleaving.RetryExactly | internal/store/retention.go:250-314 | after any history, new runs and executions of other plans among it, executing again succeeds exactly when it was recorded, or no directory was left without a snapshot, every candidate is in place or in the plan's trash, no other run references a planned blob and every other blob of a candidate has a run that keeps it; it then removes the candidates and the planned blobs and nothing else |
| GCInterleaving.RetryAmongOtherWork | internal/store/retention.go:292-314 | when no other plan is executed in between, executing again succeeds exactly when it was recorded, or no directory was left without a snapshot and no run references a planned blob; until then every other run keeps its place and its snapshot |
| GCInterleaving.SharingBlocksRetry | internal/store/retention.go:479-507 | while a run outside an unrecorded plan references a planned blob and no other plan is executed, that run stays, the plan is refused without a write and its trash stays as it is |
| GCInterleaving.RecoveryStrandsMovedRun | internal/store/store.go:552-555 | recovering a run that a crashed execution has moved puts an empty directory in its place, and the plan is never executed |
| StoreContents.BeginsExactly | internal/store/store.go:134-165 | a new run starts exactly for a known data class and a capture that brought, for each non-empty current and previous digest, the content with that digest |
| StoreContents.BegunRun | internal/store/store.go:140-186 | a completed start leaves a snapshot that names for every captured entry its current and its previous digest, the run in state PREPARED, the inventory, and one event that binds run, snapshot and data class |
| StoreContents.CapturedBlobsStay | internal/store/retention.go:479-507 | after a completed start and any later history the run is in its place with that snapshot, and then every current and previous blob it captured is stored with its content, or a collection has taken the run |
| StoreContents.LoadsExactly | internal/store/store.go:188-216 | a run loads exactly when it is not archived, has its three files, its journal derives the state of `run.json`, snapshot identifiers agree and the data class is known |
| StoreContents.UpdatedRun | internal/store/store.go:377-402 | an allowed update changes state and time of `run.json`, appends the linked event with the two states, and changes nothing else |
| StoreContents.ActsExactly | internal/store/store.go:303-352 | an action of a command succeeds exactly on an unarchived run that allows it, and does the one thing it asks for: an event, a transition, a file written or a file removed |
| StoreContents.CommandedRun | internal/store/store.go:188-216 | a command that succeeds found its run loadable and did its actions one after the other on that run alone |
| StoreContents.RecoversExactly | internal/store/store.go:547-591 | recovery succeeds exactly when run, snapshot and journal are there and agree, and the states agree already or the caller echoes the journal's state on an unarchived run |
| StoreContents.RecoveredRun | internal/store/store.go:576-591 | a recovery that changes something moves `run.json` to the journal's state, appends the linked event with both states, and changes nothing else |
| StoreContents.ArchivesExactly | internal/store/retention.go:63-130 | archiving succeeds exactly for a finished run whose journal agrees, a reason and a time, when an archive event that is already last says the same |
| StoreContents.ArchivedRun | internal/store/retention.go:109-147 | it leaves a record that repeats pin, reason and state, the time and hash of the last event and the digest of the files, sealed by its own digest, and changes no other file but the journal |
| GCContents.PlannedRuns | internal/store/retention.go:149-225 | planning succeeds exactly for a repository, at least one day and a time when every run has its snapshot; the plan describes exactly the runs that are exported, unpinned, old enough and without public evidence, in order of name, and lists exactly the blobs that their snapshots name and no other does |
| GCContents.CandidateAcceptedHolds | internal/store/retention.go:263-291 | a candidate is accepted exactly when it names a run of the repository, in place or in the plan's trash, that may still go, whose record and files have the planned digests and whose journal ends in the matching archive event |
| GCContents.ExecutesExactly | internal/store/retention.go:227-366 | executing succeeds exactly when it is recorded, or the stored plan is intact, its candidates are accepted, every run has its snapshot and the listed blobs are the ones to remove; the record has the plan, the time and the numbers of runs and blobs |
| StoreWitnesses.StrandedRunReached | internal/store/store.go:547-556 | a history from the empty store that ends so |
| StoreWitnesses.SharedBlobReached | internal/store/retention.go:292-314 | a history from the empty store: a collection dies after its rename and could be repeated; after a completed new run over the same file it is refused for as long as no other plan is executed, though every directory has its snapshot |
| StoreWitnesses.UnguardedUpdateBreaksJournal | internal/store/store.go:385-401 | a reachable lagging run on which an unguarded update is allowed and leaves a journal no reader accepts |
| StoreWitnesses.RetentionHonoured | internal/store/retention.go:162 | in every reachable state every plan keeps runs for the configured number of days, exactly up to 106751 days; beyond, some reachable run is selected too early |
| StoreObject.Store.AppendEvent | internal/store/store.go:404-446 | refuses an archived run without writing; else appends the next linked event and returns it, unless the process dies first |
| StoreObject.Store.LoadRun | internal/store/store.go:188-216 | returns what the load guard decides, without writing |
| StoreObject.Store.UpdateRunState | internal/store/store.go:377-402 | appends the transition event first and replaces `run.json` second, or stops at whichever write the process dies |
| StoreObject.Store.RecoverRun | internal/store/store.go:547-591 | makes the directory of a run that is not there and fails; writes nothing when the states agree or the echo is wrong; else `run.json` first and the recovery event second, up to where the process dies |
| StoreObject.Store.WriteBlob | internal/store/store.go:222-239 | refuses a digest that does not match the content, keeps a blob that exists, else writes it |
| StoreObject.Store.BeginClassifiedRun | internal/store/store.go:134-186 | for every write budget the state is that of a prefix of directory, `run.json`, snapshot with both digests of every entry (`StoreContents.BegunRun`), blobs in entry order and the `run_prepared` event |
| StoreObject.Store.ArchiveRun | internal/store/retention.go:63-147 | every check in the program's order; then the archive event, unless one that matches is already last, and the sealed record, up to where the process dies |
| StoreObject.Store.VerifyArchivedRun | internal/store/retention.go:389-413 | decides whether journal, archive event and tree digest match the record |
| StoreObject.Store.BlobReferences | internal/store/retention.go:479-507 | the references of the runs to keep and of the candidates, or failure when a snapshot is missing |
| StoreObject.Store.ScanRuns | internal/store/retention.go:163-209 | the candidates, in run order, or the first failure |
| StoreObject.Store.PlanGC | internal/store/retention.go:149-225 | writes the digest-named plan of the eligible runs and unshared blobs, or fails without writing |
| StoreObject.Store.CheckPlan | internal/store/retention.go:250-314 | decides whether the plan is accepted |
| StoreObject.Store.MoveRuns | internal/store/retention.go:316-331 | renames the candidates still in place one by one, up to where the process dies |
| StoreObject.Store.DropBlobs | internal/store/retention.go:332-351 | removes the planned blobs still present one by one after checking each one's content, up to where the process dies |
| StoreObject.Store.ExecuteGC | internal/store/retention.go:227-366 | for every write budget the state is that of a prefix of renames, removals, execution record and emptied trash; a recorded execution is returned again |
| Planner.SliceSize | internal/planner/planner.go:111-129 | the count is the greedy slice: every entry of it may join, the next one may not; the total is its bytes |
| Planner.MakeTask | internal/planner/planner.go:131-178 | the task of its entries: maximal risk, sorted set of contract types, one reference for each entry, digest over all of that |
| Planner.LinkDependencies | internal/planner/planner.go:180-190 | in place, every task gets the sorted identifiers of the earlier tasks it shares a contract type with |
| Planner.CountCoverage | internal/planner/planner.go:98-106 | each path is counted once for every task that holds it |
| Planner.GroupEntries | internal/planner/planner.go:68-77 | each group holds exactly its entries, in input order |
| Planner.Build | internal/planner/planner.go:53-109 | the plan is that of some sorted groups of the entries |
| PlannerProofs.PlanPartitions | internal/planner/planner.go:84-97 | the tasks hold exactly the entries, each as often as it occurs, and no task is empty |
| PlannerProofs.EachEntryInOneTask | internal/planner/planner.go:84-97 | with distinct (scope, path) pairs each entry lies in exactly one slice |
| PlannerProofs.PlanConservesBytes | internal/planner/planner.go:111-129 | the tasks' byte totals add up to the entries' bytes |
| PlannerProofs.PlanKeepsPathsWhole | internal/planner/planner.go:85-96 | all entries of a path land in one task |
| PlannerProofs.PlanCoversEachPathOnce | internal/planner/planner.go:98-106 | the coverage has exactly the entries' paths, and every count is 1 |
| PlannerProofs.TasksWithinLimits | internal/planner/planner.go:92-96 | every task has at most the allowed paths, and with two or more its bytes up to the first entry of its last path fit the limit |
| PlannerProofs.SlicesAreGreedy | internal/planner/planner.go:92-120 | of two consecutive tasks of a plan the second begins another group or begins with a new path that would have broken a limit of the first |
| PlannerProofs.PlanIgnoresInputOrder | internal/planner/planner.go:86-91 | permuting the inventory does not change the plan |
| PlannerProofs.TaskIDsDistinct | internal/planner/planner.go:169-176 | different tasks have different identifiers, unless two of the plan's task contents collide |
| PlannerProofs.PassesMatchPerspectives | internal/planner/planner.go:134-164 | a task asks for two passes with two different perspectives exactly when it holds a path of high risk, else for one |
| PlannerProofs.RiskIsMaximum | internal/planner/planner.go:139-142 | a task's risk is the highest of its paths' |
| PlanContents.PlanDescribes | internal/planner/planner.go:131-178 | each task of a plan describes its own entries: references with scope, path, kind and the coverage their risk asks for, highest risk, sorted contract types, bytes, owner confirmation, passes and perspectives |
| PlanContents.ReferencesInOrder | internal/planner/planner.go:86-91 | a task lists its references by path and, for one path, by scope |
| PlanContents.GroupsAreAlike | internal/planner/planner.go:68-77 | two entries fall into one group exactly when they are assessed at one level, have the same contracts, and without any lie below one top directory |
| PlanContents.TasksKeepGroups | internal/planner/planner.go:84-97 | entries of one task are alike in that way, and the next task begins another group or a path that would have broken a limit |
| Invalidation.Reload.Add | internal/workflow/invalidation.go:74-84 | adds the identifier and the reason once |
| Invalidation.Reload.HasReload | internal/workflow/invalidation.go:86-93 | the scan finds exactly the marked identifiers |
| Invalidation.Fixpoint | internal/workflow/invalidation.go:36-53 | the passes end, and leave a set closed under dependency neighbours in both directions, with their reasons |
| Invalidation.Propagate | internal/workflow/invalidation.go:36-53 | the fixpoint marks exactly what the seeds reach |
| Invalidation.MarkConsumers | internal/workflow/invalidation.go:54-70 | the last pass adds exactly the tasks that share a contract type with a marked one |
| Invalidation.ComputeInvalidation | internal/workflow/invalidation.go:15-72 | on any plan, the exact sorted list of tasks to reload and the exact sorted reasons of each |
| InvalidationProofs.ReachedIsComponents | internal/workflow/invalidation.go:36-53 | on tasks linked by type the fixpoint reaches exactly the connected components of the changed tasks |
| InvalidationProofs.ConsumersAlreadyReached | internal/workflow/invalidation.go:54-70 | there the last pass adds nothing |
| InvalidationProofs.PlanReloadsExactlyComponents | internal/workflow/invalidation.go:27-71 | on every plan of the planner the tasks to reload are exactly the components, under sharing a contract type, that hold a changed path |
| ReloadContents.AnswerSays | internal/workflow/invalidation.go:27-71 | on any plan the sorted answer holds exactly the identifiers the change spreads to and their consumers, and each carries exactly the reasons that apply to it |
| ReloadContents.SemanticAnswerSays | internal/workflow/invalidation.go:17-22 | when the semantic inputs changed every task is reloaded for that one reason |
| Results.CheckCoverage | internal/results/result.go:231-255 | accepts coverage items that name the task's keys once each, with evidence; complete exactly when every key is covered and nothing falls below what is required |
| Results.Validate | internal/results/result.go:153-261 | accepts exactly the well-formed results whose claim to be completed is true |
| Results.CoverageKeyInjective | internal/results/result.go:309-311 | a NUL-free scope and path are recovered from their key, whatever untrusted text made the other key |
| Results.CompletedCoversEveryPath | internal/results/result.go:231-260 | a result that calls itself completed is accepted exactly when each (scope, path) that asks for a full review has a fully reviewed item and each other one a mechanically verified, invariant-checked or fully reviewed item; no item of it is sampled, excluded or not reviewed |
| ResultContents.AcceptedExactly | internal/results/result.go:153-261 | a result is accepted exactly when header, reviewer, findings and coverage items say what they must and a claim to be completed is true |
| ResultIndex.CheckRecord | internal/cli/record.go:315-333 | accepts a record exactly when its stored result validates against the current packet and matches it field by field |
| ResultIndex.VerifyIndex | internal/cli/record.go:299-335 | accepts exactly the indexes whose records all verify and name different passes |
| ResultIndex.ReviewComplete | internal/results/index.go:93-113 | true exactly when there are tasks and each has enough perspectives, enough contexts and all its own perspectives |
| ResultIndex.TwoPassesDifferInBoth | internal/results/index.go:95-105 | although perspectives and contexts are counted apart, a complete two-pass task has two completed records that differ in both |
| ResultIndex.EachPerspectiveReviewed | internal/results/index.go:76-113 | in a verified index a complete task has a stored, validated, completed result for each of its perspectives |
| IndexContents.VerifiedExactly | internal/cli/record.go:299-335 | an index verifies exactly when each record lies under its own name, says what its stored, accepted result says of task, pass, reviewer and completion, and no task has a pass twice |
| IndexContents.ReviewedExactly | internal/results/index.go:93-113 | a planned task counts as reviewed exactly when each of its perspectives has a completed pass and, if it asks for two, two completed passes differ in provider, model family or context |
| Recording.Append | internal/results/index.go:35-65 | fails exactly on a wrong schema or a repeated pass; else the sorted records and the new one |
| Recording.ImportFindings | internal/workflow/findings.go:48-76 | fails exactly on a bad ledger, a state a provider may not set, or a repeated name; else the sorted findings and the new ones |
| Recording.RecordBatch | internal/cli/record_batch.go:249-261 | the fold succeeds exactly when no pass and no finding repeats, and leaves everything old and everything new, sorted |
| Recording.AcceptanceIgnoresOrder | internal/cli/record_batch.go:251-261 | a batch is accepted in every order or in none |
| RecordingWrites.CrashedRecordingHolds | internal/cli/record_batch.go:262-272 | stopped after any number of writes, recording leaves a ledger with every indexed result's findings, exactly unless it stops between the index and the ledger with findings to enter |
| RecordingWrites.CrashedRecordingIsFinal | internal/results/index.go:35-65 | after such a stop none of its results can be recorded again |
| RecordingWrites.RecordingsHold | internal/cli/record.go:225-233 | over any number of recordings none of which stops there with findings, the ledger holds |
| Recording.RecordingIgnoresOrder | internal/cli/record_batch.go:251-261 | any two orders of an accepted batch leave the same index, the same ledger and the same answer to whether the review is complete |
| RecordingContents.BatchLeaves | internal/workflow/findings.go:48-76 | after a batch index and ledger hold, sorted, what they held and one record for each result and each finding, with the values and the state that the result reported |
| RecordingContents.AcceptedExactly | internal/cli/record_batch.go:249-261 | a batch is accepted exactly when versions are known, no pass and no finding name repeats, and each finding is reported in a state that a provider may set |
| Compare.CheckIndependence | internal/results/result.go:343-359 | independent exactly when there are several results, their contexts differ and all are bound to one non-empty prompt |
| Compare.CompareResults | internal/results/result.go:333-400 | overlap, disagreements and unique findings are exactly the fingerprints all, some in different ways, or only one of the results report |
| Compare.CompareIsSymmetric | internal/results/result.go:373-396 | with distinct pass identifiers the comparison does not depend on the order of its inputs |
| Compare.RepeatedPassShowsOrder | internal/results/result.go:384-396 | of two results with one pass identifier the later one's list replaces the earlier one's, so one order lists a finding that the other leaves out |
| Compare.OrderShowsExactly | internal/results/result.go:384-396 | some order of the inputs changes the unique findings exactly when two of them share a pass identifier and list different ones |
| Compare.RecordedComparisonIsSymmetric | internal/cli/verify.go:143-147 | the results of one task out of a verified index compare alike in every order |
| Compare.NewComparisonIsSymmetric | internal/cli/record.go:281-297 | so does a new result beside the recorded ones of its task |
| ComparisonContents.OverlapSays | internal/results/result.go:373-379 | the overlap is exactly what each of several results reports |
| ComparisonContents.UniqueSays | internal/results/result.go:384-396 | with distinct passes each pass lists exactly what its result reports and no other result does |
| ComparisonContents.DisagreementsSay | internal/results/result.go:380-382 | a disagreement is exactly a fingerprint that was judged in two ways |
| ComparisonContents.IndependentExactly | internal/results/result.go:343-359 | independent exactly when there are several results, no two of one provider, model family and context, all under one non-empty prompt |
| Reporting.Build | internal/reporting/report.go:62-82 | the report holds sorted permutations of findings and gates, and is `ready` exactly under the listed conditions |
| Reporting.ReadyExactly | internal/reporting/report.go:84-106 | `ready` exactly when the review is complete, nothing needs confirmation, every finding is settled and every blocking gate passed |
| Reporting.VerdictIgnoresOrder | internal/reporting/report.go:78-81 | with distinct finding identifiers the verdict does not depend on the order of findings and gates |
| Reporting.VerdictExactly | internal/reporting/report.go:84-106 | the four verdicts and exactly when each is given: a finding whose decision is open asks for confirmation only in front of every finding that blocks |
| Verification.GateStatuses | internal/cli/verify.go:150-166 | each gate of the plan has the status of its last recorded evidence if that binds this snapshot, plan, definition and final run (`StatusIsCertified`), else `not_run` |
| Verification.StatusIsCertified | internal/cli/verify.go:170-182 | a gate has the status of the last item of its identifier exactly when that has this snapshot, plan digest and definition digest and is of a final run if the gate asks for one; else it is `not_run` without a digest |
| Verification.QuestionsCollected | internal/cli/verify.go:126-137 | the verdict is given every open question of the recorded results and the report every residual risk, and no others |
| Verification.Verify | internal/cli/verify.go:86-174 | a report is made exactly for the rebuilt plan, a verified index and a current gate plan; its findings and gates are the ledger's and the plan's, and its verdict is the one of the assembled evidence |
| Verification.StoredPlanVerifies | internal/cli/verify.go:97-100 | a plan stored for these inputs always equals its reconstruction |
| ReadyProofs.ReadyIsSound | internal/cli/verify.go:107-185 | `ready` means: each changed entry lies in exactly one task, and each perspective of that task covers it by a stored, validated, completed result, with status fully reviewed when its risk is not L0 or its kind is binary, submodule or LFS pointer; each blocking gate has as its last item one with this snapshot, plan and definition, of a final run where it asks for one, and status pass; no result leaves a question open; every finding is settled |
| ReadyProofs.BlockingGatesPassed | internal/cli/verify.go:166-185 | the gates let the verdict be `ready` exactly when each blocking gate of the current plan is certified as passed |
| ReadyGates.ReadyPassesConfiguredGates | internal/cli/verify.go:148-174 | for a validated configuration `ready` means that each blocking gate that a changed path calls for, or that such a gate depends on, however indirectly, has matching pass evidence |
| ReadyGates.RunDecidesStatus | internal/cli/verify.go:170-182 | when the evidence of a run without a cache is what was recorded, a gate's status is what the executor answered, and `not_run` for a gate that was not reached or wants a final run and got another |
| ReadyGates.FinalRunPassesGates | internal/cli/gates.go:238-248 | the evidence of a final run without an error passes every blocking gate, and that of any other run never lets a blocking gate that asks for a final run pass |
| ReadyFindings.ReadySettlesRecordedFindings | internal/reporting/report.go:84-106 | while the ledger holds the findings of the recorded results, `ready` means each of them is settled |
| ReadyFindings.CrashHidesCriticalFinding | internal/cli/record.go:225-233 | whatever the program's names, digests and packets are, a recording stopped between the index and the ledger leaves a run that verifies and is `ready` with a critical finding open and in no ledger |
| ReadyProofs.HighRiskReviewedTwice | internal/results/index.go:93-113 | in a complete review an entry assessed at L3 or L4 has two completed records of its task that differ in perspective and in provider, model family or context, and stand for stored results that do |
| GateSearch.SearchDecides | internal/config/config.go:323-352 | the depth-first search from all gates succeeds exactly on acyclic graphs, and then finishes each gate once and after its dependencies |
| GateConfig.CheckGates | internal/config/config.go:286-315 | the scan accepts exactly lists in which every gate passes its field checks and no identifier repeats |
| GateConfig.Validate | internal/config/config.go:285-354 | accepts exactly the well-declared acyclic gate lists, and reports a cycle exactly when that is all that is wrong |
| GatePlan.SelectMatched | internal/gates/plan.go:93-98 | selects exactly the gates whose patterns match a changed path or that have none |
| GatePlan.Close | internal/gates/plan.go:101-115 | ranging over the growing map in any order ends with the least dependency-closed set that holds the selection |
| GatePlan.Topological | internal/gates/plan.go:322-358 | the result of the sorted search, a function of the selected gates alone |
| GatePlan.OrderGates | internal/gates/plan.go:90-127 | the plan is the closure of the matched gates in search order; for a validated configuration it never fails, holds exactly the least closed set and lists each gate once after its dependencies |
| GatePlan.ValidatedGatesAreOrdered | internal/gates/plan.go:93-119 | for every validated configuration, any changed paths and any order of ranging, the sorted search of the closure succeeds and finishes each of its gates once, after its dependencies |
| GateContents.PlannedGatesExactly | internal/gates/plan.go:93-119 | for a validated configuration the plan holds exactly the gates that a changed path calls for and those they depend on, however indirectly, each once and after its dependencies |
| Glob.GlobRegexp | internal/gates/plan.go:294-320 | writes the anchored text of the pattern's pieces |
| Glob.EmittedTextParses | internal/gates/plan.go:294-320 | reading that text as a regular expression gives the intended expression: quoting never changes what surrounds it |
| Glob.TranslationPreservesMeaning | internal/gates/plan.go:294-320 | for every pattern and path the expression matches exactly what the direct glob matcher does, a double star staying on one line |
| Glob.GlobTextMeansGlob | internal/gates/plan.go:276-320 | for every path without newlines the text written for a pattern, read back and run, is the glob |
| Glob.TextsMeanGlobsExactly | internal/gates/plan.go:294-320 | the texts written for all patterns decide a path as the globs do exactly when the path has no newline |
| Glob.MatchesAny | internal/gates/plan.go:276-292 | no patterns match everything; else some pattern matches some path |
| GateRunner.Execute | internal/gates/runner.go:31-81 | the run ends at the first gate that stops it, with exactly the evidence and executions up to there |
| GateRunner.EvidenceIsAnswered | internal/gates/runner.go:57-69 | each entry is either executed, with status pass or fail as the executor answered and the gate, snapshot, plan and definition of the plan, or an item of the cache with status pass and that key, never both |
| GateRunner.EndsForItsReason | internal/gates/runner.go:31-81 | each error is given for its own reason at the gate it names, every turn before it was done, and without an error every gate of the plan had its turn |
| GateRunner.DependenciesPassFirst | internal/gates/runner.go:52-56 | a gate leaves evidence only when every gate it depends on, however indirectly, has passed in this run: the executor succeeded on it, or the cache held a passing item under its key |
| GateRunner.NothingRunsAfterFailure | internal/gates/runner.go:71-77 | gates run in plan order, each at most once, and nothing runs after a stale snapshot or a failed blocking gate |
| GateRunner.FinalGatesAreExecuted | internal/gates/runner.go:57-64 | a final run executes its final_always gates and never serves them from the cache |
| GateRunner.SuccessMeansAllBlockingPassed | internal/gates/runner.go:38-81 | a run ends without error exactly when nothing stopped it; then there is one entry for each gate in plan order and every blocking gate passed |
| GateRunner.ExpansionKeepsOrder | internal/gates/plan.go:121-127 | expanding the ordered gates keeps the order the runner relies on |
| Quoting.UnquoteRoundTrip | internal/config/config.go:417-443 | reading a quoted string gives it back, for every string |
| QuotingContents.UnquotesExactly | internal/config/config.go:436-443 | a text is read as a string exactly when it is, between quotes, pieces that denote its characters: plain characters, named escapes and numeric escapes of a code point |
| Quoting.StripComment | internal/config/config.go:417-434 | the scan cuts the line at the first `#` outside a string |
| Quoting.StripQuoted | internal/config/config.go:417-434 | the comment scanner passes over a quoted string, whatever it holds |
| Quoting.ParseList | internal/config/config.go:463-511 | the scan reads the items of the list, or fails |
| Quoting.ListRoundTrip | internal/config/config.go:463-511 | a list of any strings, quoted, bracketed and followed by blanks and a comment, is read back as that list |
| ConfigText.LoadLayer | internal/config/config.go:164-237 | accepts a layer exactly when all lines are read and the result is valid with a pending baseline; what reading a field sets is `ConfigWriting.ConfigurationLoadsBack`, what it refuses `ConfigAcceptance.DocumentAccepted` |
| ConfigText.Validate | internal/config/config.go:263-354 | accepts exactly the valid configurations (`ConfigAcceptance.ConfigurationAcceptedExactly`) |
| ConfigDocument.LoadText | internal/config/config.go:164-220 | accepts a file exactly when every line fits the scanner, all lines are read and the result is valid with a pending baseline |
| ConfigDocument.LinesRoundTrip | internal/config/config.go:171-177 | joining lines and scanning them gives the lines back, exactly when each fits the scanner's buffer |
| ConfigDocument.FitsExactly | internal/config/config.go:171-177 | a line fits exactly when its UTF-8 form, a byte a character and one more from each of three code points on, is shorter than 64 KiB |
| ConfigDocument.TextIsRead | internal/config/config.go:164-220 | the text of any document of readable entries has the effect of its entries, one after the other, exactly when its lines fit |
| ConfigWriting.ConfigurationLoadsBack | internal/config/config.go:356-415 | any configuration with any gates, written out and read over any other, comes back with every field and every gate, exactly when its lines fit |
| ConfigWriting.GatesLoadBack | internal/config/config.go:178-220 | gate sections at the end of any document without one give exactly these gates in all fourteen fields, whatever gates the lower layer had |
| ConfigWriting.ValidGatesLoad | internal/config/config.go:285-354 | valid gates at the end of a document that is valid without them are loaded, exactly when the lines fit |
| ConfigAcceptance.DocumentAccepted | internal/config/config.go:178-224 | a document is read exactly when its lines fit, its sections are known and opened once, and each field is known under its header, readable, and the first of its name there |
| ConfigAcceptance.GatesAcceptedExactly | internal/config/config.go:285-354 | gates are accepted exactly when each is usable, no two share an identifier, each dependency is another gate, and no gates depend on each other in a ring |
| ConfigAcceptance.ConfigurationAcceptedExactly | internal/config/config.go:263-284 | a configuration is accepted exactly with schema 1, a baseline that is not blank, positive limits, a provider, ignored paths inside the repository and usable gates |
| ConfigWriting.DocumentLoadsBack | internal/config/config.go:22-43 | the starter document for a non-blank baseline loads over any layer with valid gates, and gives that baseline and the built-in values, exactly when the baseline's line fits |
| ConfigWriting.MinimalDocument | internal/config/config.go:22-43 | refuses exactly the blank baselines, and every document it returns loads back when its baseline line fits |
| Encoding.WriteStream | internal/snapshot/snapshot.go:131-146 | writes the length-prefixed fields in order |
| Encoding.StreamRoundTrip | internal/snapshot/snapshot.go:131-146 | the stream can be read back into its fields, for any number of fields |
| Encoding.StreamInjective | internal/snapshot/snapshot.go:109-139 | equal streams have equal fields |
| Encoding.WriteMap | internal/store/retention.go:591-605 | the stream is a function of the map, in whatever order its keys were collected |
| Encoding.MapStreamInjective | internal/store/retention.go:591-605 | for NUL-free keys and values equal streams have equal maps |
| Encoding.TreeStreamInjective | internal/store/retention.go:415-457 | for digests of files under NUL-free paths, which is all the store hashes, equal streams have equal trees |
| Encoding.WriteScope | internal/workflow/findings.go:176-185 | writes the sorted paths, each with its terminator |
| Encoding.ScopeStreamDeterminesPaths | internal/workflow/findings.go:176-185 | the scope streams of NUL-free paths are equal exactly for permutations of one list |

## Left out

- GCInterleaving.RetryExactly: assumes that no new run takes the random identifier of a candidate while the execution is not recorded.
- Lock files: one atomic mutex for each lock, so operations follow one another; the takeover of a dead process's lock in several steps is not modelled.
- Torn appends, and journal lines longer than the scanner's buffer: an append writes one whole line, and every line can be read.
- Path cleaning, symbolic links, permissions, temporary files and syncing; of directory creation only that of a run's own directory, which is a step.
- Overflow of the event sequence number and of byte counts: both are unbounded integers; the retention interval is modelled with its 64-bit wrap-around.
- JSON, base64 and SHA-256, except the byte layout of what is hashed.
- Registering repositories, finding the latest run, and reading blobs back.
- RecordingWrites.CrashedRecordingHolds: assumes that new result files have names of their own, whose truncated digests do not collide, and that the ledger on disk has the version the program writes.
- Aliasing in `results.Append`, which sorts the slice it was given after appending: the model returns a new index.
- Resolving executables, working directories and environments of gates: the expansion keeps identifiers and dependencies and is otherwise an input.
- Trust bindings, policy approvals, fix authorization and transitions of findings after import.
- Risk assessment and contract discovery: their results are inputs of the planner.
- Coverage tallies, comparisons and merge notes of the report, its Markdown form, and all command-line plumbing.
- Non-ASCII glob patterns and the replacement of backslashes on hosts that use them.
- Glob.ParseAtom: reads only the part of regular expression syntax that the translation writes.
- Quoting.Unquote: reads double-quoted strings with the escapes that quoting writes; octal escapes, hexadecimal escapes of bytes above 7F, and single-quoted and back-quoted forms are refused.
- ConfigWriting.ConfigurationLoadsBack: assumes numbers of 64 bits, which the program's are.
- PlanContents.GroupsAreAlike: assumes risk levels without a bar and contract types that are not empty and hold no comma or bar; the program's are fixed words.
- Results.CompletedCoversEveryPath: assumes a task whose scopes and paths are NUL-free and name no pair twice, as planned tasks are; what the result names may hold anything.
- IndexContents.ReviewedExactly: assumes reviewer contexts without NUL, the separator under which the program joins them, and a task that asks for one pass a perspective, which planned tasks do.
- ComparisonContents.UniqueSays: assumes distinct passes, which a verified index guarantees; without them `Compare.OrderShowsExactly` holds.
- Encoding.StreamInjective: assumes that field lengths fit 64 bits, which holds for every slice.
- Results.Validate: measures the pass identifier in characters, which is its length in bytes for ASCII.
- ReadyProofs.ReadyIsSound: assumes distinct (scope, path) pairs, NUL-free scopes and paths and no collision between the plan's tasks.
- GateRunner.SuccessMeansAllBlockingPassed: names each entry's gate only when the cache holds evidence under the key of the gate it was recorded for; the command passes no cache.
