# Verified model of the sanctions ingestion agent

A Dafny 4.11 model of the sanctions-list ingestion service: how one publisher's list is fetched, archived, checked,
published as a versioned table, held for review, and shown to screening. `dafny verify dfyconfig.toml` checks it.

## What is modelled

**The ingestion-to-publish protocol** is a state machine over one source's tables (`Pipeline`). Every `tx()` block
of the runner, the queue, the review desk and the reclaimer is one event; an event the code would not perform leaves the
state unchanged. The worker is the volatile memory of the process executing the running run, and a crash erases it
at any point. `PipelineInvariant` and `PipelineSteps` prove the invariant for every event, `PipelineTheorems` draws
the consequences for whole runs, `Gates` says in figures what the two gates let through and `PublicationDates` what
follows for the dates of everything ever published, `CrashTransparency` proves exactly when crashes and resumptions cannot change how a
job ends, `HeldVersions` and `Stranding` characterise which held versions can still be released and which transactions
take that away, and `Screening` puts several sources and their snapshots together.

| part | modules |
|---|---|
| versioned rows, store, staging, gate | `Scd2`, `ListStore`, `ListStoreProofs`, `Staging`, `Validation` |
| run queue, state machine | `RunQueue`, `Leases`, `Pipeline`, `PipelineInvariant`, `PipelineSteps` |
| theorems over runs | `PipelineTheorems`, `CrashTransparency`, `HeldVersions`, `Stranding`, `StagingErrors`, `Gates`, `PublicationDates`, `Cancellation`, `Screening` |
| the same transactions updating tables in place | `PublishTables`, `RunTable`, `ReviewDesk`, `Runner` |
| scheduling and guards | `Schedule`, `Health`, `Autopilot` |
| configuration | `ConfigTree`, `Merge`, `ConfigStore`, `ConfigService` |
| kernels | `RateLimit`, `Identifiers`, `Metrics`, `FillRates` |

The imperative modules are proved against the transition functions, and the theorems are about those functions.

Modelling decisions:

* Workers are fail-stop: a run is reclaimed only when no worker is executing it, and a reclaimed run takes no further step.
* Publish and resolve transactions are serial. Identity columns are positions in their tables.
* `content_hash` is collision-free, so comparing documents stands for comparing hashes. Percentages, durations in
  hours, tokens and shares are exact; instants and durations are whole microseconds.
* A reader is one deployed code and adapter configuration. Records, file checks, marker, date and the parser's report
  are functions of the reader and the archived bytes. A worker takes its settings when it claims a run, and a version
  remembers its reader, so a re-parse after a fix may read the same bytes differently. Building a curated list is a fetch.
* Whether the response of an attempt's own fetch carried a Last-Modified header is part of the worker's memory; it
  stands in for a missing marker in the file and is not there in an attempt that starts from archived bytes.
* The gate's quality is computed from the staged list by the counters of `Metrics` over the fields in use.
* A run's `archived` field is its finished ARCHIVE step. `log`, `claims` and the run of a publication are history the code does not store as such; nothing reads them.
* Configuration models and host allow-lists are parameters. Of a canonical record only what the index, the metrics and
  the gate read is spelled out; the rest is one opaque text.

## Findings

Properties that one would expect and that the code meets only under a condition; each is proved with its exact
condition and an input that breaks it. The last one is a difference to the documentation only.

* Crash transparency fails for a file whose only publication marker is the Last-Modified header, under
  `require_publication_marker`: a resumed attempt has no header, so it quarantines a file that would have passed
  (`CrashTransparency.TransparentIff`, `CrashTransparency.HeaderIsLost`).
* A held version can lose its only way out: the publish of an older one expires its proposal, its queued release is
  withdrawn, its release fails or is abandoned for good, its proposal is declined, or it was held by a dry run. These are
  all the ways (`Stranding.StrandedIff`, `Stranding.StrandedBy`), it never recovers (`HeldVersions.StrandedForever`), and a
  plain refetch of the same file stops at "still held" (`HeldVersions.FetchGoesOnIff`).
* The parse loop takes any exception for a parser error, so a failed write to staging quarantines a good file, and
  nothing else does once the job is in flight (`StagingErrors.QuarantinedThoughGoodIff`,
  `StagingErrors.StagingErrorQuarantines`). A plain refetch then stops at "still quarantined"
  (`StagingErrors.RefetchStopsAtError`).
* A slot planned by `on_failure` can be refused by the politeness check (`Health.FailureSlotRefusedIff`,
  `Health.FailureSlotRefused`).
* `next_due` skips a slot that falls exactly at the end of the polite wait (`Health.EarlierSlotRefusedIff`,
  `Health.EarlierSlotSkipped`).
* The politeness grace is documented as at most a tenth; rounding can exceed it for part-minute seeds
  (`Schedule.GraceWithinTenthIff`, `Schedule.GraceExceedsATenth`), never for whole minutes.
* Schedules with part-minutes, which a seed may give, do not survive their stored form, so such edits are dropped or
  change when approved (`Schedule.RoundTripIff`, `Schedule.HalfMinuteIsLost`, `ConfigStore.RoundedAwayIsDropped`,
  `ConfigStore.ApprovedScheduleExactIff`).
* A reported path reads back exactly when its first key is not empty and none of its keys has a dot; the keys of the
  fill-rate floors have one (`ConfigTree.ReadsBackIff`, `ConfigTree.DottedFloorIsNotFound`).
* A sensitive change needs review exactly when both configurations have objects down to the sensitive key; an optional
  object added as a whole, as `sanctions_map`, goes in force on one admin's word (`ConfigStore.InForceAtOnceIff`,
  `ConfigStore.RollBackInForceIff`, `ConfigStore.NewObjectNeedsNoReview`).
* The host allow-list is checked whenever an edit to a live source, an approval or an activation goes in force, but not
  when a pause ends: what was configured meanwhile goes live unchecked (`ConfigStore.HostsStayOkIff`,
  `ConfigStore.RefusedHostStaysOut`, `ConfigStore.PauseEndsUnchecked`).
* The limit of so many calls per window holds for no token bucket: the burst comes on top, and no more
  (`RateLimit.BurstComesOnTop`, `RateLimit.WindowBound`).
* The LEI check accepts a second check pair for some prefixes (`Identifiers.SecondPairIff`,
  `Identifiers.SecondPairAccepted`).
* The documentation says staging of held runs is kept for seven days (docs/architecture.md:129-130); the purge keeps it
  as long as the version is HELD (src/sanctions_agent/ops/scheduler.py:93-106). The model follows the code.

## Model

| member | source | states |
|---|---|---|
| `CrashTransparency.TransparentIff` | src/sanctions_agent/pipeline/runner.py:160-178 | Exactly when crashes cannot change the ending of a job that archived its file: every schedule of steps, crashes, reclaims, claims and removal decisions ends as the uninterrupted ingest of the bytes does, iff no Last-Modified header is needed that a resumed attempt would lose, or the file is rejected even with it |
| `CrashTransparency.HeaderIsLost` | src/sanctions_agent/pipeline/runner.py:366-397 | A file whose only publication marker is the response header, where the gate requires a marker: uninterrupted it gets through, but when the first attempt dies after archiving the resumed one quarantines it |
| `CrashTransparency.CrashTransparency` | src/sanctions_agent/pipeline/runner.py:141-209 | Outside that case, along every such schedule the job is in flight with the open list untouched and only released keys missing from the holds, or ended exactly as one atomic ingest of the archived bytes into that listing, or was given up with that listing unchanged |
| `CrashTransparency.CrashesDoNotMatter` | src/sanctions_agent/pipeline/runs.py:318-380 | Outside that case two schedules of one job with any crashes in either, finishing after the same releases, end with the same run status, open map and holds |
| `CrashTransparency.StepInFlight` | src/sanctions_agent/pipeline/runner.py:141-209 | One event of an undisturbed job keeps it in flight or ends it as the atomic ingest does for an attempt with or without the header; giving up changes nothing |
| `CrashTransparency.ArchivingStartsTheJob` | src/sanctions_agent/pipeline/runner.py:303-355 | The guarantee starts the moment the first attempt archived its file and went on |
| `CrashTransparency.ResumptionStartsFrom` | src/sanctions_agent/pipeline/runs.py:333-360 | What a resumed attempt starts from: the archived bytes, else the re-parse option, else a fresh fetch |
| `CrashTransparency.SameVerdict` | src/sanctions_agent/pipeline/runner.py:527-569 | The gate of any attempt sees the diff and quality the uninterrupted run would see |
| `PipelineTheorems.StepRefines` | src/sanctions_agent/pipeline/publish.py:295-460 | Every transaction of the whole machine is, on the abstract list, one atomic ingest of an archived file, one release of a held key, or nothing |
| `PipelineTheorems.BlockingSafety` | src/sanctions_agent/pipeline/removals.py:168-183 | Over any run of the system a key that blocked and no longer does was released by a reviewer at some step |
| `PipelineTheorems.UnblockedIffReleased` | src/sanctions_agent/review.py:44-81 | A key stops blocking in a step exactly when that step is a reviewer, not the proposer, applying a removal decision for its held candidate |
| `PipelineTheorems.EveryPublicationBoundedOrApproved` | src/sanctions_agent/pipeline/validate.py:186-212 | Over any run of the system every publication stayed within the removal bounds of its configuration or was approved by somebody other than the validator |
| `PipelineTheorems.NoUnreviewedMassRemoval` | src/sanctions_agent/pipeline/runner.py:577-625 | The keys a publish takes off the list respect the bounds the gate checked before, because preview and publish see the same diff |
| `PipelineTheorems.ReleasedOnlyByReviewer` | src/sanctions_agent/pipeline/removals.py:168-183 | A candidate becomes CONFIRMED, STILL_LISTED_ELSEWHERE or REJECTED_ID_CHANGE only by a reviewer's decision, signed by that reviewer |
| `PipelineTheorems.PassedIsBounded` | src/sanctions_agent/pipeline/validate.py:186-212 | A file that passed the gate removes at most the configured number and share of the current list |
| `PipelineTheorems.PublishStep` | src/sanctions_agent/pipeline/runner.py:627-645 | A publishing step is never refused: it makes exactly the content of the archived file current, and its run succeeds in the same step |
| `PipelineTheorems.VersionLifecycle` | src/sanctions_agent/pipeline/publish.py:310-321 | In every reachable state: one PUBLISHED version equal to the current one and newest ever published; HELD versions are newer, so never outdated; CANDIDATE and VALIDATED ones belong to a running run |
| `PipelineTheorems.TimeTravelFromArchive` | src/sanctions_agent/pipeline/publish.py:309-356 | In every reachable state the rows valid at any sequence number are exactly the content of the archived file last published by then |
| `PipelineTheorems.ChainPublishesOnce` | src/sanctions_agent/pipeline/runs.py:318-380 | A resume chain publishes at most one version |
| `PipelineTheorems.QuietStep` | src/sanctions_agent/pipeline/runner.py:102-138 | An event that neither publishes nor resolves changes no row, hold, index or publication |
| `PipelineSteps.ExecuteKeepsMachineOk` | src/sanctions_agent/pipeline/runner.py:102-209 | The invariant of all tables and of the worker holds in every reachable state, under any interleaving of runs, crashes, reclaims and reviewers |
| `PipelineSteps.StepKeepsMachineOk` | src/sanctions_agent/pipeline/runner.py:102-209 | Every single event keeps the invariant |
| `PipelineSteps.DiffPublishGoesThrough` | src/sanctions_agent/pipeline/runner.py:627-645 | DIFF_PUBLISH after a passing verdict always succeeds and publishes the archived content |
| `PipelineSteps.PublishHeldGoesThrough` | src/sanctions_agent/pipeline/runner.py:651-695 | An approved release always finds its version held, its staging complete and no newer version, and publishes exactly the file that was held |
| `PipelineSteps.ClosedOk` | src/sanctions_agent/pipeline/runner.py:832-869 | However a run stops, no CANDIDATE or VALIDATED version of it remains |
| `PipelineSteps.ReclaimOk` | src/sanctions_agent/pipeline/runs.py:318-380 | Reclaiming a dead run closes its version, drops its staging and resumes it, keeping the invariant |
| `PipelineSteps.DecideOk` | src/sanctions_agent/review.py:44-81 | A decision keeps the invariant: releases name a held, approved version; resolutions name an existing candidate |
| `PipelineSteps.HoldStepOk` | src/sanctions_agent/pipeline/runner.py:597-625 | Putting a large change on hold closes run, version and proposal together and keeps the staging the release will publish |
| `HeldVersions.StrandedForever` | src/sanctions_agent/review.py:65-76 | Once nobody can release a decided version, no future run of the system ever publishes it |
| `HeldVersions.PublishStrandsNewer` | src/sanctions_agent/pipeline/publish.py:437-447 | A publish supersedes older held versions and strands exactly the newer ones: still held, but without any way to be released |
| `HeldVersions.IngestStrandsNothing` | src/sanctions_agent/pipeline/publish.py:437-447 | An ingest publishes the newest version, so only a release can strand one |
| `HeldVersions.CancelledReleaseStrands` | src/sanctions_agent/pipeline/runs.py:224-241 | Cancelling a queued release strands its version: the approval is spent |
| `HeldVersions.RefetchStopsAtHeld` | src/sanctions_agent/pipeline/runner.py:337-354 | An ordinary fetch of a file that is still held or quarantined, and not published, stops as the newest such version and takes nothing in |
| `StagingErrors.QuarantinedThoughGoodIff` | src/sanctions_agent/pipeline/runner.py:485-500 | In any state of a job whose file passes the checks, an attempt ends quarantined exactly when a write to staging fails while it is parsing |
| `StagingErrors.StagingErrorQuarantines` | src/sanctions_agent/pipeline/runner.py:485-500 | From every reachable parsing state such a failure ends the run and quarantines its version; what is listed and held stays |
| `StagingErrors.RefetchStopsAtError` | src/sanctions_agent/pipeline/runner.py:337-354 | An ordinary refetch of the file quarantined that way stops as QUARANTINED, unless the same bytes are published |
| `HeldVersions.FetchGoesOnIff` | src/sanctions_agent/pipeline/runner.py:326-355 | A fetched file is taken in exactly when forced, dry, or neither published nor pending; otherwise the run ends like the newest pending version |
| `Stranding.StrandedIff` | src/sanctions_agent/pipeline/publish.py:437-447 | A held version that can still be released is stranded by a transaction exactly if that publishes an older version, withdraws its queued release, fails its release, abandons it without resuming, or declines its proposal |
| `Stranding.StrandedBy` | src/sanctions_agent/pipeline/runner.py:577-625 | In every history a version that is held with no way out was stranded by one of those transactions, or held by a dry run |
| `Stranding.HeldWithAWayOutIff` | src/sanctions_agent/pipeline/runner.py:577-600 | The gate's HOLD leaves a way to release the version exactly when the run is no dry run |
| `Stranding.BecomesHeld` | src/sanctions_agent/pipeline/runner.py:527-569 | A version becomes HELD only by the gate's verdict on its own run |
| `Stranding.ReclaimStrandsIff` | src/sanctions_agent/pipeline/runs.py:344-362 | Abandoning a release strands its version exactly when its attempts are used up or its source is not active |
| `Stranding.DecideStrandsIff` | src/sanctions_agent/review.py:44-81 | A decision strands a version exactly when it declines the version's own proposal |
| `Stranding.ReleasingTheOlderStrandsTheNewer` | src/sanctions_agent/pipeline/publish.py:437-447 | From any state with two held versions and an idle queue: approving, claiming and publishing the older one leaves the newer one held with no way out |
| `HeldVersions.PurgedIff` | src/sanctions_agent/ops/scheduler.py:93-106 | A purge takes a run's staging exactly when the run is over and holds no version |
| `Gates.ValidateFileIff` | src/sanctions_agent/pipeline/runner.py:356-436 | From every reachable archived phase the file is rejected exactly when the adapter finds fault, the file and the live version are dated and the file is the older, or a required marker is in neither file nor header |
| `Gates.ValidateRecordsIff` | src/sanctions_agent/pipeline/runner.py:509-600 | From every reachable parsed phase the run is quarantined exactly for too few records, more than one in a hundred skipped, forbidden unknown paths, or a field too rare among the records of its type; else its version is held exactly when a live list loses too many keys by either bound or gains too many by both |
| `Gates.QualityMeans` | src/sanctions_agent/pipeline/runner.py:474-550 | What the warnings count: records dropped as duplicates, invalid ship and entity codes, unmapped countries, and persons without any readable date of birth |
| `PublicationDates.PublishedDateNeverFalls` | src/sanctions_agent/pipeline/runner.py:382-394 | After every history, held versions and releases included, no publish replaces a dated version by a file with an earlier date |
| `PublicationDates.DatesNeverFall` | src/sanctions_agent/pipeline/runner.py:382-394 | Where every published file is dated, the dates along the whole publication log never fall |
| `Cancellation.CancelledIff` | src/sanctions_agent/pipeline/runner.py:72-74 | A request ends the run exactly at the phases before which the code looks for one; nothing else changes |
| `Cancellation.NoneCancelledUnasked` | src/sanctions_agent/pipeline/runs.py:224-241 | In every history a cancelled run was asked to stop, and a release that was taken up is never cancelled |
| `Screening.NewestSnapshotIsBlocking` | src/sanctions_agent/pipeline/publish.py:251-273 | Once anything is published the newest snapshot shows for every source exactly the blocking keys, listed or pending, never both |
| `Screening.SnapshotsAreReproducible` | migrations/sql/0001_init.sql:574-593 | No later event of any source changes what an existing snapshot shows |
| `Screening.WorldRunKeepsWorldOk` | src/sanctions_agent/pipeline/publish.py:448-453 | Over any run of all sources the newest snapshot equals the current holds and pins |
| `Screening.CrosslistIsExact` | src/sanctions_agent/pipeline/publish.py:276-292 | After every history from the empty system the index leads from an identifier to a record exactly when the record is listed now and carries that identifier |
| `Screening.EntryIff` | src/sanctions_agent/pipeline/publish.py:276-292 | An entry is in the index exactly when its row is open, has its key and carries its identifier |
| `Screening.MeetIff` | src/sanctions_agent/pipeline/publish.py:279-290 | Two identifiers lead to the same entry exactly when they are the same code and, for passports and registrations, of the same country |
| `Scd2.PublishKeepsRowsOk` | src/sanctions_agent/pipeline/publish.py:338-356 | A publish keeps per-key intervals disjoint with at most one open |
| `Scd2.PublishOpensStaged` | src/sanctions_agent/pipeline/publish.py:324-356 | After a publish the open rows are exactly the staged list |
| `Scd2.PublishKeepsThePast` | src/sanctions_agent/pipeline/publish.py:338-356 | Publishing never changes the answer for an earlier sequence number |
| `Scd2.PublishKeepsTimeTravel` | src/sanctions_agent/pipeline/publish.py:338-356 | Time travel survives a publish |
| `ListStoreProofs.PublishSucceedsIff` | src/sanctions_agent/pipeline/publish.py:308-321 | A publish goes through exactly for an unpublished version above the live one |
| `ListStoreProofs.PublishKeepsStoreOk` | src/sanctions_agent/pipeline/publish.py:295-460 | A publish keeps every invariant of versions, rows, removals, index and log |
| `ListStoreProofs.PublishNeverUnblocks` | src/sanctions_agent/pipeline/publish.py:409-422 | After a publish what blocks is what blocked before plus the staged keys |
| `ListStoreProofs.EveryRemovalIsFiled` | src/sanctions_agent/pipeline/publish.py:409-415 | Exactly the vanished keys get a pending candidate pointing at their last row; the conflict clause never fires |
| `ListStoreProofs.AssessKeepsHeld` | src/sanctions_agent/pipeline/removals.py:84-165 | Assessing never changes what is held |
| `ListStoreProofs.ResolveReleasesOne` | src/sanctions_agent/pipeline/removals.py:168-183 | A resolution releases the one key of its candidate, exactly when that was held and the parser is not blamed |
| `ListStoreProofs.ResolveKeepsStoreOk` | src/sanctions_agent/pipeline/removals.py:168-183 | Resolving keeps the store invariant; no listed record ever drops out unaccounted for |
| `ListStoreProofs.RecommendationIsApplied` | src/sanctions_agent/pipeline/removals.py:104-183 | From the evidence through the recommendation to the outcome: which proposal an assessment makes, the status the candidate gets when it is applied as recommended, and that its key stops blocking |
| `ListStoreProofs.AssessAsksOnce` | src/sanctions_agent/pipeline/removals.py:128-156 | While a confirmation is waiting another assessment asks nothing, so no removal is ever asked about twice at once |
| `ListStoreProofs.ParserFaultKeepsBlocking` | src/sanctions_agent/pipeline/removals.py:168-183 | Blaming the parser marks the candidate and releases nothing |
| `ListStoreProofs.ReturnedIsRelisted` | src/sanctions_agent/pipeline/publish.py:416-422 | A publish relists, in the system's name, exactly the held candidates whose key came back, and leaves the others as they were |
| `PublishTables.Tables.PublishVersion` | src/sanctions_agent/pipeline/publish.py:295-460 | The ordered row updates of the publish transaction have exactly the effect of the transition function, or none at all |
| `PublishTables.Tables.DiffPreview` | src/sanctions_agent/pipeline/publish.py:233-248 | The outer-join counts are the sizes of the differences between the two maps |
| `PublishTables.Tables.CountChanges` | src/sanctions_agent/pipeline/publish.py:332-388 | ADD plus RELIST events are the previewed additions, CHANGE and REMOVE the previewed changes and removals; RELIST counts the returning keys |
| `PublishTables.Tables.FileCandidates` | src/sanctions_agent/pipeline/publish.py:409-415 | Filing candidates row by row under the unique index files one per vanished key not already held |
| `PublishTables.FiledKeys` | migrations/sql/0001_init.sql:540-541 | The unique index on holding candidates never rejects a vanished row |
| `PublishTables.FiledAreNotRelisted` | src/sanctions_agent/pipeline/publish.py:409-422 | Relisting after filing touches only the older candidates |
| `PublishTables.Tables.RefreshCrosslist` | src/sanctions_agent/pipeline/publish.py:276-292 | Rebuilding the index row by row gives the key function of the open rows |
| `PublishTables.Tables.SwitchVersion` | src/sanctions_agent/pipeline/publish.py:433-447 | The ordered status updates leave the given version published and the others superseded as specified |
| `PublishTables.Tables.AssessRemoval` | src/sanctions_agent/pipeline/removals.py:84-165 | Status and proposal after an assessment; at most one confirmation waits; blocking unchanged |
| `PublishTables.Tables.ResolveRemoval` | src/sanctions_agent/pipeline/removals.py:168-183 | A resolution applies only to a candidate that is still held |
| `ReviewDesk.Decide` | src/sanctions_agent/review.py:21-101 | A decision is refused without a trace or does exactly what the state machine says; refused exactly for a missing, decided or own proposal, a wrong role or a busy source |
| `Staging.Parse` | src/sanctions_agent/pipeline/runner.py:438-507 | Whatever the batch size, the parse loop stages exactly the first record of every key and counts the rest as duplicates |
| `Staging.StagedIsFirst` | src/sanctions_agent/pipeline/runner.py:474-481 | Every staged record is the first of its key in the file |
| `Staging.KeysAreKept` | src/sanctions_agent/pipeline/runner.py:474-481 | No key of the file is lost and none invented |
| `Staging.StagedMapIsFirst` | src/sanctions_agent/pipeline/runner.py:474-481 | The staged map gives each key the document of its first record |
| `Staging.PreviewConserves` | src/sanctions_agent/pipeline/publish.py:233-248 | Added, changed and unchanged make up the staged list; removed, changed and unchanged the previous one |
| `Validation.PassBoundsAdditions` | src/sanctions_agent/pipeline/validate.py:186-212 | PASS bounds additions by number or by share |
| `Validation.ValidateData` | src/sanctions_agent/pipeline/validate.py:47-232 | The sequence of checks yields exactly the specified verdict and the specified report, issue by issue |
| `Validation.ReportListsIff` | src/sanctions_agent/pipeline/validate.py:60-212 | Exactly which failing issues and which warnings the report lists, category by category |
| `Validation.ReportIsHonest` | src/sanctions_agent/pipeline/validate.py:40-44 | The report lists a failing issue exactly when the file is quarantined |
| `Validation.VerdictIff` | src/sanctions_agent/pipeline/validate.py:60-212 | The verdict in the figures: the first of four conditions on records, skipped records, unknown paths and fill rates names the error; otherwise HOLD exactly when the removals pass either bound or the additions both |
| `Validation.CheckFloors` | src/sanctions_agent/pipeline/validate.py:108-137 | The floor loop fails exactly when some measured rate is below its floor |
| `Validation.ValidationResult.FailWith` | src/sanctions_agent/pipeline/validate.py:40-44 | The first failing check fixes the error class |
| `Validation.PassBoundsRemovals` | src/sanctions_agent/pipeline/validate.py:186-212 | PASS bounds removals by number and by share |
| `Runner.IngestRunner.ListIngest` | src/sanctions_agent/pipeline/runner.py:141-209 | Uninterrupted, the straight-line ingest ends exactly as the atomic ingest of the acquired bytes, or early with nothing published: unchanged, pending, not modified or failed to fetch |
| `Runner.IngestRunner.Process` | src/sanctions_agent/pipeline/runner.py:189-209 | From the archived file the run always ends, in the status and with the list of the atomic ingest |
| `Runner.IngestRunner.Parse` | src/sanctions_agent/pipeline/runner.py:438-507 | The flush loop ends with the file fully staged, or in the failing parse phase |
| `Runner.IngestRunner.Conclude` | src/sanctions_agent/pipeline/runner.py:195-209 | From the staged list the run asks the gate and then publishes, holds, quarantines or reports the dry run, as the atomic ingest does |
| `Runner.AskGate` | src/sanctions_agent/pipeline/runner.py:509-565 | Folding the metrics over the staged list and asking the gate gives the verdict the state machine uses |
| `Runner.MeasureQuality` | src/sanctions_agent/pipeline/runner.py:509-550 | What the fold measures is the quality the gate judges: counts, fill rates of the floors, checksum failures, unmapped values and dates |
| `RunQueue.AttemptIsChainLength` | src/sanctions_agent/pipeline/runs.py:334-343 | The attempt number is the length the recursive query counts, at most MAX_RESUMES + 1 |
| `RunQueue.ResumingTerminates` | src/sanctions_agent/pipeline/runs.py:334-360 | Every resumption points back and uses up one of the resumptions left |
| `RunQueue.ChainShares` | src/sanctions_agent/pipeline/runs.py:346-360 | Members of a chain share source, kind, options and batch; all but the last are abandoned |
| `RunQueue.ChainFinishesOnce` | src/sanctions_agent/pipeline/runs.py:318-380 | Of two attempts of one chain at least one was abandoned |
| `RunQueue.ReclaimKeepsQueueOk` | src/sanctions_agent/pipeline/runs.py:318-380 | Reclaiming keeps one active run per source, single claims and linear chains |
| `RunQueue.ReclaimResumesIff` | src/sanctions_agent/pipeline/runs.py:344-362 | A dead run is resumed exactly while attempts are left and the source is active; it is never refused as busy |
| `RunQueue.ClaimKeepsQueueOk` | src/sanctions_agent/pipeline/runs.py:183-200 | A run is handed out at most once |
| `RunQueue.AnyInterleavingKeepsQueueOk` | src/sanctions_agent/pipeline/runs.py:104-380 | Under every interleaving of enqueue, claim, heartbeat, cancel, finish and reclaim over any number of sources the queue invariant holds |
| `RunQueue.OneActiveRunEach` | src/sanctions_agent/pipeline/runs.py:104-241 | In every such state a source has at most one active run and no run was claimed twice |
| `RunQueue.EnqueueKeepsQueueOk` | migrations/sql/0001_init.sql:188-189 | Enqueueing keeps at most one active run per source |
| `Leases.LiveLeaseProtects` | src/sanctions_agent/pipeline/runs.py:203-216 | After a claim or a holder's beat, whatever else happens, no reclaim up to the end of the lease touches the queue |
| `Leases.SilentRunIsReclaimedIff` | src/sanctions_agent/pipeline/runs.py:318-360 | When the worker falls silent a reclaim abandons the run exactly after the lease has run out, and resumes it exactly within three attempts and for an active source |
| `Leases.LeaseStarts` | src/sanctions_agent/pipeline/runs.py:183-216 | Only a due run is claimed and only its holder renews its lease; anything else changes nothing |
| `Leases.SubmittedIsTakenIff` | src/sanctions_agent/pipeline/runs.py:130-192 | A submitted run is handed out exactly from its time on |
| `Leases.BusySourceRefuses` | src/sanctions_agent/pipeline/runs.py:124-130 | A source with a queued or running run accepts no other |
| `RunTable.Queue.EnqueueRun` | src/sanctions_agent/pipeline/runs.py:104-180 | Queues the run, or names the active run in its way |
| `RunTable.Queue.ClaimNext` | src/sanctions_agent/pipeline/runs.py:183-200 | Claims the first due run by priority and age, if there is one |
| `RunTable.Queue.Heartbeat` | src/sanctions_agent/pipeline/runs.py:203-212 | Extends the lease only of the run this worker holds and reports a cancellation |
| `RunTable.Queue.RequestCancel` | src/sanctions_agent/pipeline/runs.py:224-241 | Cancels a queued run, flags a running one, leaves a finished one |
| `RunTable.Queue.Finish` | src/sanctions_agent/pipeline/runs.py:287-302 | The status is overwritten whatever it was; an active run frees its source; the queue stays in order exactly unless a resumed abandoned run is closed again |
| `RunTable.Queue.ChainCount` | src/sanctions_agent/pipeline/runs.py:334-343 | The walk over predecessors counts the chain |
| `RunTable.Queue.ReclaimAbandoned` | src/sanctions_agent/pipeline/runs.py:318-380 | Exactly the expired runs are abandoned and exactly the resumable ones resumed, under the same terms; nothing else changes |
| `Health.GuardGrantsInTheEnd` | src/sanctions_agent/ops/autopilot.py:70-104 | Whatever happened before, an active idle source is granted at any time from its last attempt plus six hours or its minimum interval |
| `Health.RunKeepsHealthOk` | src/sanctions_agent/pipeline/source_state.py:21-100 | Over any history CLOSED means fewer than three failures in a row and OPEN names a retry within six hours of the last attempt |
| `Health.BackoffBounds` | src/sanctions_agent/pipeline/source_state.py:74-76 | The backoff grows with the failures, between thirty minutes and six hours |
| `Health.BreakerWaits` | src/sanctions_agent/pipeline/source_state.py:64-85 | The third failure in a row opens the breaker for half an hour, the fourth for one hour, then two, four and six |
| `Health.NothingBeforeTheRetry` | src/sanctions_agent/pipeline/source_state.py:88-100 | After a third or later failure in a row nothing is granted before the retry it named, whatever is asked and whatever happens short of a success |
| `Health.RetryIsGranted` | src/sanctions_agent/pipeline/source_state.py:88-100 | With the politeness wait over, a run is granted exactly from that retry on |
| `Health.EarlyRetries` | src/sanctions_agent/pipeline/source_state.py:64-85 | The first two failures leave the breaker closed and plan a retry after ten and twenty minutes, the minimum interval or the next slot |
| `Health.NothingWithinTheWait` | src/sanctions_agent/ops/autopilot.py:54-90 | After any contact, whatever follows, no run is granted within the interval less the grace unless it ignores it |
| `Health.PlannedSlotIsGranted` | src/sanctions_agent/ops/autopilot.py:80-86 | The slot planned by a success is granted when it comes |
| `Health.PlannedSlotIsPolite` | src/sanctions_agent/pipeline/source_state.py:48-61 | A slot planned by a success or a data problem is never refused as impolite |
| `Health.EarlierSlotRefusedIff` | src/sanctions_agent/scheduling/schedule.py:121-124 | An earlier slot would have been refused, except one exactly at the end of the wait |
| `Health.EarlierSlotSkipped` | src/sanctions_agent/scheduling/schedule.py:121-124 | A two-hour source whose wait ends at two sharp: the slot at two is polite and four is planned |
| `Health.FailureSlotRefusedIff` | src/sanctions_agent/pipeline/source_state.py:64-84 | When the slot planned by a failure is refused as impolite: exactly when it is closer than the polite wait |
| `Health.FailureSlotRefused` | src/sanctions_agent/pipeline/source_state.py:64-84 | A concrete failure slot that is refused |
| `Health.GrantsArePolite` | src/sanctions_agent/ops/autopilot.py:80-86 | A grant comes no earlier than the minimum interval less the grace |
| `Autopilot.DueSourceIsGranted` | src/sanctions_agent/ops/autopilot.py:107-123 | No due source starves: once the guards' longest wait is over the next cycle gives it a run |
| `Autopilot.CyclePullsEverybody` | src/sanctions_agent/ops/autopilot.py:282-296 | A source that is wanted or past its hard limit and that the guards allow has a run after the cycle, one just out of its pause included |
| `Autopilot.CycleRespectsGuards` | src/sanctions_agent/ops/autopilot.py:54-104 | A cycle starts no run the guards refuse, and under maintenance starts none |
| `Autopilot.CycleStartsIff` | src/sanctions_agent/ops/autopilot.py:54-160 | Exactly when one cycle starts a run for an idle source, in the fields of its row |
| `Autopilot.Fleet.EnqueueGuarded` | src/sanctions_agent/ops/autopilot.py:54-104 | Granted exactly when every guard allows it, a draft source for dry runs only; an open breaker past its retry becomes half-open even if a run is in the way |
| `Autopilot.Fleet.Plan` | src/sanctions_agent/ops/autopilot.py:107-123 | Lists exactly the active idle sources that are due or signalled, once each, by priority and due time with undated ones first, and says why |
| `Autopilot.Fleet.RunPlan` | src/sanctions_agent/ops/autopilot.py:126-142 | Every planned source ends up enqueued or skipped according to the guards; others are untouched |
| `Autopilot.Fleet.Cycle` | src/sanctions_agent/ops/autopilot.py:282-296 | Every source ends as its own row decides through chores, watchdog and plan, and is reported exactly when it got a run |
| `Autopilot.Fleet.WatchdogPulls` | src/sanctions_agent/ops/autopilot.py:145-186 | Forces a guarded pull of exactly the idle sources past their hard limit |
| `Autopilot.Fleet.OnFailure` | src/sanctions_agent/pipeline/source_state.py:64-84 | One more failure; the breaker is open exactly from the third on |
| `Autopilot.Fleet.OnSuccess` | src/sanctions_agent/pipeline/source_state.py:21-45 | Failures and breaker reset, next polite slot planned, each time stamp moved exactly when its flag says so |
| `Schedule.NextAfterIsLeastSlot` | src/sanctions_agent/scheduling/schedule.py:108-116 | The next slot is the least multiple of the cadence strictly after the instant |
| `Schedule.Preview` | src/sanctions_agent/scheduling/schedule.py:126-132 | The preview lists consecutive slots one cadence apart and leaves none out |
| `Schedule.GraceWithinTenthIff` | src/sanctions_agent/scheduling/schedule.py:24-27 | The grace stays within a tenth of the interval exactly when the tenth is not rounded up below two minutes |
| `Schedule.GraceExceedsATenth` | src/sanctions_agent/scheduling/schedule.py:24-27 | A seed of 15.0000001 minutes passes a floor of a quarter of an hour and has a grace above a tenth |
| `Schedule.WholeMinutesKeepTheGrace` | src/sanctions_agent/scheduling/schedule.py:24-27 | For whole minutes the grace never exceeds a tenth |
| `Schedule.RoundTripIff` | src/sanctions_agent/scheduling/schedule.py:52-74 | A schedule survives its JSON form exactly when its minutes are whole |
| `Schedule.HalfMinuteIsLost` | src/sanctions_agent/scheduling/schedule.py:52-74 | A seed of 30.5 minutes runs every 30.5 minutes but is stored, and read back, as 30 |
| `Schedule.SeedDefaults` | src/sanctions_agent/scheduling/schedule.py:53-63 | What a seed without entries means |
| `Schedule.RoundsToNearest` | src/sanctions_agent/scheduling/schedule.py:53-63 | Durations are rounded to the nearest microsecond, ties to the even one |
| `Schedule.Validate` | src/sanctions_agent/scheduling/schedule.py:77-106 | An interval schedule is accepted exactly when floor, cadence and staleness limits agree |
| `ConfigStore.ActiveVersionIsUnique` | src/sanctions_agent/sources/config_service.py:133-162 | Over any history one version is active, the source row mirrors it, and the version never goes back |
| `ConfigStore.RunFollows` | src/sanctions_agent/sources/config_service.py:225-408 | History is append-only; configuration in force changes only with a greater version |
| `ConfigStore.RunKeepsStoreOk` | src/sanctions_agent/sources/config_service.py:225-408 | The configuration invariant holds over any history of edits, rollbacks and reviews |
| `ConfigStore.ApprovedAsReviewed` | src/sanctions_agent/sources/config_service.py:375-408 | An approval by another person applies exactly the reviewed difference to exactly the configuration it was made against |
| `ConfigStore.OutdatedNeverApplies` | src/sanctions_agent/sources/config_service.py:384-394 | A proposal against an older configuration can never be approved |
| `ConfigStore.NoLostUpdate` | src/sanctions_agent/sources/config_service.py:242-245 | In every history at most one of the edits, rollbacks and approvals made against one version goes in force, and each replaces exactly the version it was made against |
| `ConfigStore.OnlyCurrentGoesIn` | src/sanctions_agent/sources/config_service.py:242-245 | A transaction changes what is in force, or files a proposal, only if it was made against the version in force |
| `ConfigStore.UpdateOkIff` | src/sanctions_agent/sources/config_service.py:242-263 | Exactly when an edit is refused, and as what: out of date, invalid, or for its hosts |
| `ConfigStore.CreatedOkIff` | src/sanctions_agent/sources/config_service.py:164-222 | Exactly when a source can be created, and live at once |
| `ConfigStore.DecideOkIff` | src/sanctions_agent/sources/config_service.py:345-408 | Exactly when a decision is accepted; declining changes nothing but the proposal and its version |
| `ConfigStore.RefusedHostStaysOut` | src/sanctions_agent/sources/config_service.py:69-86 | Over every history in which no pause ends while refused hosts are configured, a live source only has allowed hosts |
| `ConfigStore.HostsStayOkIff` | src/sanctions_agent/sources/config_service.py:225-323 | The one transaction after which a live source can have a refused host is the end of a pause |
| `ConfigStore.PauseEndsUnchecked` | src/sanctions_agent/ops/autopilot.py:219-225 | A paused source given a refused host within a new object goes live with it when the pause ends |
| `ConfigStore.SensitiveNeedsReview` | src/sanctions_agent/sources/config_service.py:273-315 | A step that changes a value below a sensitive key which both configurations reach through objects is another admin's approval or a trusted update |
| `ConfigStore.InForceAtOnceIff` | src/sanctions_agent/sources/config_service.py:225-323 | A proper edit, with or without configuration or schedule, goes in force at once exactly when the deployment makes it, or no review is forced and no value differs below a sensitive key that both configurations reach through objects; otherwise it waits for another admin |
| `ConfigStore.RollBackInForceIff` | src/sanctions_agent/sources/config_service.py:325-342 | A rollback that changes something goes in force at once exactly when no such value differs; otherwise it waits for another admin |
| `ConfigStore.NewObjectNeedsNoReview` | src/sanctions_agent/sources/config_models.py:106-114 | An optional object added as a whole where none was configured goes in force without review, its URL and all |
| `ConfigStore.RollbackRestores` | src/sanctions_agent/sources/config_service.py:325-342 | A rollback restores the old version's content as the current model reads it, at once or as a proposal |
| `ConfigStore.RoundedAwayIsDropped` | src/sanctions_agent/sources/config_service.py:257-263 | A schedule edit lost in the stored form is reported as applied and changes nothing |
| `ConfigStore.ApprovedScheduleExactIff` | src/sanctions_agent/sources/config_service.py:395-402 | An approved schedule takes effect as proposed exactly when its minutes are whole |
| `ConfigService.Service.constructor` | src/sanctions_agent/sources/config_service.py:165-222 | A created source starts at version 1, active and mirrored; only a seed may create one that is live |
| `ConfigService.Service.UpdateSource` | src/sanctions_agent/sources/config_service.py:225-323 | Refused without a trace, applied, or written as a proposal |
| `ConfigService.Service.RollBack` | src/sanctions_agent/sources/config_service.py:325-342 | A rollback is an ordinary edit to an old version's content |
| `ConfigService.Service.DecideChange` | src/sanctions_agent/sources/config_service.py:345-408 | Declines, or applies the proposed version if nothing changed since; otherwise nothing happens |
| `ConfigService.Service.Apply` | src/sanctions_agent/sources/config_service.py:133-162 | Retiring and activating versions row by row leaves exactly one active |
| `ConfigTree.NoDiffIffSame` | src/sanctions_agent/sources/config_models.py:166-174 | The diff is empty exactly for trees equal up to None-valued keys |
| `ConfigTree.ReportedDiffers` | src/sanctions_agent/sources/config_models.py:166-174 | At every reported position the trees differ, and not between two objects |
| `ConfigTree.ReportedApart` | src/sanctions_agent/sources/config_models.py:166-174 | No reported position lies above another |
| `ConfigTree.DifferenceIsReported` | src/sanctions_agent/sources/config_models.py:166-174 | Any differing position lies at or below a reported one |
| `ConfigTree.DiffPathsAreRendered` | src/sanctions_agent/sources/config_models.py:166-174 | The dotted paths are the differing positions written out, in order |
| `ConfigTree.ReportedPathDiffers` | src/sanctions_agent/sources/config_service.py:488-494 | With dot-free keys every reported path reads back two different values |
| `ConfigTree.PathsAreComplete` | src/sanctions_agent/sources/config_models.py:166-174 | With dot-free keys every difference has a reported path at or above it |
| `ConfigTree.ReadsBackIff` | src/sanctions_agent/sources/config_service.py:488-494 | A position reads back from its dotted path exactly when it is not the root, its first key is not empty and none of its keys contains a dot |
| `ConfigTree.DottedFloorIsNotFound` | src/sanctions_agent/sources/config_models.py:63-73 | A changed fill-rate floor is reported under a path that names nothing on either side |
| `ConfigTree.GetPath` | src/sanctions_agent/sources/config_service.py:488-494 | The walk reads the value at the split path |
| `ConfigTree.ReportReachesIff` | src/sanctions_agent/sources/config_models.py:162-174 | A change below a key is reported under that key exactly when both sides have objects down to it |
| `ConfigTree.FlaggedIff` | src/sanctions_agent/sources/config_models.py:162-174 | For all trees the gate asks for review exactly when a value differs below a sensitive key that both sides reach through objects |
| `ConfigTree.PlainSensitive` | src/sanctions_agent/sources/config_models.py:15-17 | Which undotted keys are sensitive: exactly the seven that name addresses, hosts and headers |
| `ConfigTree.RenderSensitive` | src/sanctions_agent/sources/config_models.py:162-163 | However a position is written, its text is sensitive exactly when one of its keys is |
| `Merge.MergeInto` | src/sanctions_agent/agent/tools.py:528-534 | In place, only the given dictionary is written and it becomes the merged tree |
| `Merge.Proposed` | src/sanctions_agent/agent/tools.py:328-345 | Merging into a copy writes no dictionary that existed before |
| `Merge.MergeIsIdempotent` | src/sanctions_agent/agent/tools.py:528-534 | Applying a patch twice is applying it once |
| `Merge.MergeTouchesOnlyThePatch` | src/sanctions_agent/agent/tools.py:528-534 | Every reported difference of a merge is a key path of the patch |
| `Merge.PatchWins` | src/sanctions_agent/agent/tools.py:528-534 | The patch's leaves, null included, are there afterwards |
| `Merge.RestIsKept` | src/sanctions_agent/agent/tools.py:528-534 | Keys the patch does not name keep their values |
| `RateLimit.GrantsAreBounded` | src/sanctions_agent/http/ratelimit.py:31-44 | Any stretch of grants totals at most one full bucket plus rate times length |
| `RateLimit.LevelStaysInRange` | src/sanctions_agent/http/ratelimit.py:31-44 | The level stays between empty and full over any history |
| `RateLimit.WindowBound` | src/sanctions_agent/http/ratelimit.py:27-29 | Over one window the configured limit may be exceeded by the burst only |
| `RateLimit.BurstComesOnTop` | src/sanctions_agent/http/ratelimit.py:27-29 | For every limit and window single calls can be granted up to the bound: the configured number plus the whole burst within one window |
| `RateLimit.TooLargeNeverGranted` | src/sanctions_agent/http/ratelimit.py:31-44 | A request above the capacity is never granted |
| `RateLimit.OneSleepSuffices` | src/sanctions_agent/http/ratelimit.py:31-44 | After sleeping as told a sole caller is granted |
| `RateLimit.TokenBucket.Acquire` | src/sanctions_agent/http/ratelimit.py:31-44 | A sole caller returns after at most one sleep, having waited exactly for the missing tokens |
| `Identifiers.SubstitutionIsCaught` | src/sanctions_agent/canonical/normalize/identifiers.py:30-36 | In a code of any length one wrong digit for a digit or letter for a letter is caught |
| `Identifiers.SwapIsCaught` | src/sanctions_agent/canonical/normalize/identifiers.py:30-36 | Two adjacent different characters of one class swapped are caught |
| `Identifiers.LeiErrorsAreCaught` | src/sanctions_agent/canonical/normalize/identifiers.py:30-36 | In upper or lower case such an error in a valid LEI makes it invalid |
| `Identifiers.OneCheckPair` | src/sanctions_agent/canonical/normalize/identifiers.py:30-36 | Each prefix has exactly one valid check pair in 02 to 98 |
| `Identifiers.SecondPairIff` | src/sanctions_agent/canonical/normalize/identifiers.py:30-36 | The code accepts a second pair outside that range exactly when the prescribed one is 02, 97 or 98 |
| `Identifiers.SecondPairAccepted` | src/sanctions_agent/canonical/normalize/identifiers.py:30-36 | Eighteen zeros are accepted with 98, as prescribed, and with 01 |
| `Identifiers.Mod97` | src/sanctions_agent/canonical/normalize/identifiers.py:30-36 | The left-to-right fold is the big number modulo 97 |
| `Identifiers.ValidLei` | src/sanctions_agent/canonical/normalize/identifiers.py:30-36 | A code of letters and digits is accepted in either case and refused with another last digit |
| `Identifiers.WorthCountsUp` | src/sanctions_agent/canonical/normalize/identifiers.py:30-36 | Digits count from zero, letters from ten |
| `Identifiers.SmallLettersCountToo` | src/sanctions_agent/canonical/normalize/identifiers.py:30-36 | A small letter counts as its capital |
| `Identifiers.ValidImo` | src/sanctions_agent/canonical/normalize/identifiers.py:17-22 | A valid number, the same with another check digit, and one too short |
| `Identifiers.ImoErrorMissedIff` | src/sanctions_agent/canonical/normalize/identifiers.py:17-22 | When a wrong IMO digit goes unnoticed: exactly when weight times error is a multiple of ten |
| `Metrics.Compute` | src/sanctions_agent/quality/metrics.py:175-179 | Every counter of the fold is its total over the documents |
| `Metrics.VersionMetrics.Add` | src/sanctions_agent/quality/metrics.py:100-137 | A document adds to every counter exactly its own contribution, field predicates, unmapped countries and best birth date included |
| `Metrics.VersionMetrics.FillRateOf` | src/sanctions_agent/quality/metrics.py:139-143 | The rate is the type's filled share, none for an absent type |
| `Metrics.OrderDoesNotMatter` | src/sanctions_agent/quality/metrics.py:175-179 | Every counter is invariant under permutation of the documents |
| `Metrics.FillRateIsAShare` | src/sanctions_agent/quality/metrics.py:139-143 | For any table naming every field once per type a fill rate lies between zero and one; none exactly when the type is absent |
| `Metrics.SourceFillRateIsAShare` | src/sanctions_agent/quality/metrics.py:37-86 | So every fill rate of the table in use lies between zero and one |
| `Metrics.SourceFieldsNamedOnce` | src/sanctions_agent/quality/metrics.py:37-86 | The table in use names no field twice for a type, common fields included |
| `Metrics.FilledAtMostOnce` | src/sanctions_agent/quality/metrics.py:100-112 | With distinct names a document fills a field at most once |
| `Metrics.PartsAreParts` | src/sanctions_agent/quality/metrics.py:113-137 | Weak aliases and valid checksums never exceed what they are divided by |
| `Metrics.PrecisionsPartitionPersons` | src/sanctions_agent/quality/metrics.py:134-137 | Every person falls into exactly one class by the best precision among the birth dates |
| `FillRates.FillRateIsAShareOfCounts` | src/sanctions_agent/quality/metrics.py:37-112 | Every fill rate is the number of records of the type that have what the field asks for, field by field, over the number of records of the type |
| `FillRates.FilledIsHas` | src/sanctions_agent/quality/metrics.py:37-112 | A document fills a field exactly when it is of the type and has what the field asks for |
| `FillRates.PrecisionsCount` | src/sanctions_agent/quality/metrics.py:134-137 | The precision counters count the persons whose finest birth date is of that precision |
| `FillRates.AddsMean` | src/sanctions_agent/quality/metrics.py:100-126 | What a document adds to the counters of records, codes, valid codes, aliases by strength and failing fields |
| `FillRates.UnmappedAreCounted` | src/sanctions_agent/quality/metrics.py:113-133 | Unmapped values are those of identifiers, and of addresses, countries and birth places unless the publisher says the country is unknown |
| `FillRates.MarkedUnknownIff` | src/sanctions_agent/quality/metrics.py:127-133 | Trimming and upper-casing finds exactly the texts that are one of the two words for unknown between spaces, in any case |

## Left out

- HTTP, TLS, blob files, compression: a fetch delivers bytes, the archive is a set of hashes.
- XML, JSON and CSV parsers, country and date normalisers, notice feeds, enrichment, annex proposals: adapters and
  wording are parameters or absent.
- child_rows, copy_children, field_diff and the change-event rows: column mapping; only the event counts are modelled.
- CRON schedules and time zones: only interval schedules are modelled.
- Schedule.Validate: the time-zone test and the CRON branch are not modelled.
- ConfigService.Service.UpdateSource: updates of priority and display name are not modelled.
- ConfigService.Service.DecideChange: activation proposals are not modelled; only configuration changes are decided here.
- ConfigService.Service.Apply: the recomputed due time is not modelled.
- ReviewDesk.Decide: only releases and removals; notice links, enrichment matches, annex entries and administrative
  proposals are not modelled.
- Incidents, alerts, audit rows, progress, notifications, signals' contents, the agent and its prompts, API and CLI.
- Stalled workers that continue after reclaim and `run_once`: outside the fail-stop model.
- Interleavings of two sources' publish transactions under READ COMMITTED: transactions are serial.
- HeldOk: held staging is stated for runs that are not dry runs; a dry run that crashes after a HOLD verdict leaves a
  HELD row whose staging is purged.
- CrashTransparency.CrashTransparency: an attempt abandoned before its archive step is finished fetches afresh, so the
  guarantee starts at that step. A change of the settings while the job runs is excluded, and so is a failed write to
  staging, whose effect `StagingErrors` states. `CrashTransparency.TransparentIff` speaks of the same schedules.
- Runner.IngestRunner.Parse: a failed write to staging is an event of the state machine, not of this code; here only the
  reader itself fails.
- PipelineTheorems.PublishStep: the publish transaction ends the run. If the purge of the staging in the transaction
  after it raises (src/sanctions_agent/pipeline/runner.py:643-645, 695-697), the code then overwrites SUCCEEDED with
  FAILED although the version is live; that ending is not modelled.
- Runs of other kinds than LIST_INGEST and RELEASE_HELD; run batches beyond being shared along a chain.
- released_by as the approver's name: a resumed release carries the reclaimer; the model speaks of the approved proposal.
- EXPIRED configuration proposals: the exception that follows rolls the status change back, so they stay pending.
- Timedelta overflow from the 39th consecutive failure: durations are unbounded integers.
- Evidence, cross-list hits and ID-change suspects of a removal are inputs of its assessment.
- Who may activate, pause or disable a source: it is live or not, and becomes so with or without a check of its hosts.
- Autopilot.Fleet.Cycle: the removal assessments among the chores and the incidents of the watchdog are not part of it.
- Metric rows and their rounding to four digits: the counters and fill rates are modelled.
- Optional validation reports and titles of proposals.
- Unmapped country values are counted in total, not per value.
- Identifiers.Upper: ASCII only; Unicode upper-casing that changes the length is not modelled.
- ConfigTree.Sorted: lists and scalars are leaves compared as a whole; Python's `1 == 1.0 == True` is not modelled.
- Merge.MergeInto: the patch must not contain the dictionary being patched, as at its only call site.
- RateLimit.TokenBucket.Acquire: stated for a sole caller and a request within the capacity; the loop never ends otherwise.
