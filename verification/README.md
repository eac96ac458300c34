# Aurora Core: verified model

Aurora Core watches an ambient-light installation: it collects the health of four components, keeps a
bounded history of it in SQLite, probes capture devices and LED controllers, activates configuration
profiles, and lets authenticated clients switch the lights. This project models the parts of it that
have to stay right over long runs and under faults, and proves what they promise. Each `.dfy` file is
one module of the same name. `dafny verify dfyconfig.toml` checks everything.

## What is modelled

**Health history.** `Evaluation`, `SamplingGap` and `Lifecycle` are the three pure state machines.
`Json`, `ReasonCodes` and `Projection` hold the validated projections with their closed registry of
reasons, their canonical text and the digest. `HistoryTables` is the relational state: checkpoint, replay
ledger, six evaluation rows, samples, alerts and alert events, as maps from row ids; `RowOrder` is
`ORDER BY` and `LIMIT`. `Ingestion` is one submission as a function of the whole database, with every
check that answers with a loss of trust.
`HistoryStore` is the same as a class that updates its tables in place inside a transaction and rolls
back; it is proved to compute exactly that function.

The invariant `Sound` (`IngestionSafety`), built up in `AlertTable`, `AlertPlans` and `AlertPlanning`,
makes the trust-losing branches dead. `IngestionRuns`, `ExactlyOnce`, `Compaction`, `AlertTimeline` and
`PlanEffects` state what holds after any stream of submissions. `MixedRuns` mixes submissions with
retention cleanups; `Debouncing` and the uniqueness of live alerts are stated over such mixed runs, and
`AlertGenerations` says how long they can go on before alert generations are used up. `AlertMachine` is a
small reference machine of one alert that knows the accepted observations only, with every threshold written
out; `AlertRuns` proves that the stored alerts are the machine's after every mixed run. `AlertLog` replays the
event log into the alerts, and `StorageRuns` says which answer every new observation gets. `Queries` is the
independent reader, `ReaderAgreement` compares it with the writer, and `EarlyRecovery` is a run whose last
alert it refuses. `Reports` is the way from a health report to a projection, and `ProjectedReports` says which
reports have one.

**Retention and scheduling.** `Retention` and `RetentionRuns` compare the bounded plan with the unbounded
list of everything expired; `RetentionEffects` says in terms of the tables what a cleanup keeps and takes
away; `RetentionStore` is the cleanup as it runs on the tables, look by look at its
clock; `RetentionTrust` says when it finds a row that the reader refuses, and `LateCommit` is a run that
commits and reports a timeout. `Cadence`, `Scheduler` and `SchedulerRuns` account for every slot of the
sampling grid; `SchedulerService` is the scheduler object; `SingleWriter` connects scheduler and database,
and `WriterSlots` counts the slots against what the database accepted.

**Hardware probes.** `FrameResults` is the separately written validator of frame results. `CaptureDevice`
is an arbitrary device that remembers what was done to it, or one that follows a script; `ReadWriteProbe`
and `StreamingProbe` (with `FrameProbing`) are the two probes, `ScriptedProbes` runs the second on devices
that cooperate, and `CaptureFrameService` is the command on top of both. `DdpPackets`,
`DdpResults` and `DdpProbe` are the same for the LED output. `CaptureModes` and `ModeEnumeration` are the
bounded enumeration of capture modes.

**Configuration activation.** `ProfileFiles` is a file system in which every operation may fail,
`Backups` the backup repository, `Activation` apply and rollback.

**Concurrency and windows.** `AttemptHistory` and `AttemptLimiter` compare the pruned sliding-window lists
with the full history. `MutationGate` and `ControlOperations` are the reentrant gate under interleaved
operations of any number of threads; `ControlRecords` holds their results against the log of adapter calls, and
`ControlProgress` shows that each of them ends. `HealthCache` is the generation-checked cache in the same style,
`HealthAnswers` says where its answers come from.

Surroundings are arbitrary: clocks, devices, sockets, adapters, validators and file-system faults are
nondeterministic answers or parameters.

## Findings

- Ingestion loses trust on a projection that passes validation and is new exactly if a component is
  `healthy` and its only reason says that it is switched off on purpose
  (`IngestionRuns.TrustIsLostExactlyByContradiction`, with an example in `Reports.ContradictionCostsTrust`).
  `validate_health_projection` accepts such a projection; `project_health_report` never builds one.
- When the clock goes back between the opening and the recovery of an alert, the reader rejects that alert;
  this is the only row it ever rejects, over any mix of submissions and cleanups
  (`ReaderAgreement.ReaderAcceptsExactly`). It happens: two observations of unavailable components recorded
  at 10 and two healthy ones recorded at 5, all from projected reports with registered reasons and all
  accepted (`EarlyRecovery.ReaderCanRefuse`). A cleanup loses trust exactly over such alerts among those it fetches
  (`RetentionTrust.CleanupReadsExactly`).
- The result of the memory-mapping probe fails its validator exactly if the device answers in one of two ways:
  a dequeued frame that fits the format but not the length that the driver gave for mapping; or no valid frame,
  what was mapped wiped and what was started stopped, but buffers that could not be unmapped or released and a
  close that failed (`StreamingProbe.ProbeOpened`, with a run on a scripted device for each in
  `ScriptedProbes.FrameBeyondMappingArises` and `ScriptedProbes.StuckWithoutFrameArises`).
- The DDP probe's result fails its validator exactly if the clock cannot be read when the probe starts
  (`DdpProbe.Probe`).
- A maintenance call reports a timeout although its rows are gone exactly if it commits and its last look at
  the clock, right after the commit, is late (`RetentionStore.CleanupRetention`, with a run from the empty
  database in `LateCommit.CommittedTimeout`).
- A single writer counts a cadence slot twice exactly when the answer to an accepted observation is lost: the
  database holds the misses it reported and the scheduler keeps them pending (`WriterSlots.WriterSlotsAreConserved`).

## Model

| member | source | states |
|---|---|---|
| Evaluation.CounterIsRunLength | src/aurora_core/health_history/evaluation.py:91-150 | the stored counter is the length of the current run of one failing status (saturating), or the parity of the run of healthy observations under an alert, for every run of inputs |
| Evaluation.ConfirmedExactlyAtThreshold | src/aurora_core/health_history/evaluation.py:106-126 | a condition is confirmed if and only if the current run of one failing status has reached 3 (degraded) or 2 (unavailable) |
| Evaluation.RecoveredExactlyAtEverySecond | src/aurora_core/health_history/evaluation.py:129-150 | a recovery is confirmed if and only if the run of healthy observations under an alert has just reached an even length |
| SamplingGap.GapStartsAndEnds | src/aurora_core/health_history/sampling_gap.py:92-179 | a gap begins exactly with an opening (two or more misses) and ends exactly with a recovery from the second clean observation |
| Lifecycle.TransitionIsLawful | src/aurora_core/health_history/lifecycle.py:123-294 | every applied transition opens one valid alert or moves one forward, never shortens a cooldown, and archives only after the cooldown; all others change nothing |
| Json.EncodingIsInjective | src/aurora_core/health_history/projection.py:352-382 | the compact JSON encoding of section 6 and 7 values of RFC 8259 used here maps different values to different texts, for all strings that are written as they are |
| ReasonCodes.CodesArePlain | src/aurora_core/health_history/reasons.py:14-67 | every code of the closed registry, for each component, is written in JSON as it is, so no projection is left out of the canonical text |
| Projection.CanonicalTextIsInjective | src/aurora_core/health_history/projection.py:352-382 | two well-formed projections with one canonical text agree on every field except the recorded time |
| Projection.DigestMatchMeansSameContent | src/aurora_core/health_history/projection.py:219-239 | for valid projections equal content gives equal digests, and equal digests give equal content or a hash collision |
| Projection.WorstStatus | src/aurora_core/health_history/projection.py:341-349 | the overall status is the status of some component and none is worse |
| Reports.ProjectedIsValid | src/aurora_core/health_history/projection.py:146-239 | a projected report passes `validate_health_projection`, carries the given sequence, times, kind and misses, and never claims a component to be disabled and healthy |
| ProjectedReports.ReportIsProjected | src/aurora_core/health_history/projection.py:146-239 | a report is projected if and only if it has four valid components with different names, its overall status is their worst and all numbers are in range; the projection has the same components |
| Reports.ProjectedReportIsAccepted | src/aurora_core/health_history/ingestion.py:188-282 | after any mix of submissions and cleanups, a projected report with a larger sequence is accepted or rejected with GENERATION_EXHAUSTED; trust is kept |
| Reports.ContradictionCostsTrust | src/aurora_core/health_history/evaluation.py:76-77 | a concrete valid projection on the empty database that is rejected with loss of trust |
| AlertTable.EligibleAreBounded | src/aurora_core/health_history/ingestion.py:961-989 | never more than 11 alerts are eligible for archival, so the cap is never exceeded |
| AlertTable.ActiveHealthIsBounded | src/aurora_core/health_history/ingestion.py:832-841 | never more than two health alerts of one scope are active |
| AlertTable.ActiveIsUnique | src/aurora_core/health_history/ingestion.py:909-924 | at most one alert of a scope and kind is active |
| AlertTable.CurrentIsRead | src/aurora_core/health_history/ingestion.py:909-958 | reading the current or latest alert of a pair succeeds and finds the only one that may still be live, or that the pair has no alert |
| AlertPlans.ReadyPlansPersist | src/aurora_core/health_history/ingestion.py:1110-1213 | plans for different pairs that were ready at planning time all persist without a constraint violation and keep the alert table well formed |
| AlertPlans.ArchivalSucceeds | src/aurora_core/health_history/ingestion.py:961-989 | archival never fails, archives nothing but recovered alerts past their cooldown, and leaves none of those behind |
| AlertPlanning.AlertsArePlanned | src/aurora_core/health_history/ingestion.py:740-906 | planning never finds a malformed table: it yields ready plans for different pairs, each new alert one generation after the one it follows, or some alert has reached generation 65535; which plans these are is stated by `Debouncing.ScopesAreAnswered` and `Debouncing.GapIsAnswered` |
| Debouncing.ScopesAreAnswered | src/aurora_core/health_history/ingestion.py:740-906 | a confirmed condition has a plan that raises its alert, with one occurrence and the cooldown counted from now, or notes one more occurrence of the live one; a confirmed recovery has a plan that heals each active alert of the scope; no other plan is made |
| Debouncing.GapIsAnswered | src/aurora_core/health_history/ingestion.py:767-781 | two or more missed intervals, or any miss within a gap, have a plan that raises the sampling alert or notes one more occurrence; the end of a gap has a plan that heals the active one; no other plan is made |
| PlanEffects.PlansWork | src/aurora_core/health_history/ingestion.py:1110-1213 | each persisted plan has its effect on its own alert and every other row stays as it was |
| IngestionSafety.LedgerKeepsNewest | src/aurora_core/health_history/ingestion.py:1234-1281 | inserting into the ledger by key and trimming it keeps exactly the newest 64 entries in order |
| IngestionSafety.BaselineIsRead | src/aurora_core/health_history/ingestion.py:597-737 | in a sound database the six rows agree on their baseline sample and that sample is present and readable |
| IngestionSafety.DecisionsAreSound | src/aurora_core/health_history/ingestion.py:457-594 | all decisions on an observation succeed with plans that can be persisted, unless it contradicts itself or some alert has reached generation 65535 |
| IngestionSafety.IngestionKeepsTrust | src/aurora_core/health_history/ingestion.py:188-282 | one submission to a sound database leaves it sound; rejections and replays change no table; which answer is possible for invalid, old and new observations; the only trust-losing answer is the one to a contradiction, and GENERATION_EXHAUSTED means that an alert has reached generation 65535 |
| IngestionRuns.TrustIsLostExactlyByContradiction | src/aurora_core/health_history/ingestion.py:188-282 | after any stream of submissions to the empty database, a submission loses trust if and only if it is valid, new and self-contradictory |
| IngestionRuns.AcceptedStep | src/aurora_core/health_history/ingestion.py:209-272 | an accepted submission went through archival, decisions, recording, persistence and checkpoint, each successful, and left a sound database |
| IngestionRuns.StepMovesCheckpoint | src/aurora_core/health_history/ingestion.py:1234-1281 | an accepted step makes the observation the checkpoint, counts it, and appends it to the trimmed ledger |
| ExactlyOnce.LedgerIsRecentPast | src/aurora_core/health_history/ingestion.py:325-375 | after every run the ledger is exactly the newest 64 (or fewer) accepted observations, the newest is the checkpoint, and accepted sequences strictly increase |
| ExactlyOnce.OldSequenceAnswer | src/aurora_core/health_history/ingestion.py:350-375 | an old sequence changes no table; it is a replay if and only if its entry is in the ledger, stale if and only if its sequence is not |
| ExactlyOnce.RetainedIsReplayed | src/aurora_core/health_history/ingestion.py:350-375 | submitting any of the last 64 accepted observations again returns REPLAYED and changes nothing |
| ExactlyOnce.RetryChangesNothing | src/aurora_core/health_history/ingestion.py:188-282 | an immediate retry of anything leaves the database as the first attempt left it |
| ExactlyOnce.RetriesAreInvisible | src/aurora_core/health_history/ingestion.py:188-282 | a stream with any number of immediate retries ends in the same database as the stream without them |
| Compaction.CompactionIsLossless | src/aurora_core/health_history/ingestion.py:544-637 | for every accepted observation the latest sample at or before it has the same overall status and the same status, reasons and intentional disablement per component, and is less than 900,000,000 microseconds older unless it is its own |
| Compaction.StateOnlyMeansUnsampled | src/aurora_core/health_history/ingestion.py:544-594 | STATE_ONLY is answered exactly when the observation gets no sample |
| StorageRuns.AnswerIsExpected | src/aurora_core/health_history/ingestion.py:544-637 | after any stream, every new observation gets the expected answer: markers are stored as markers; a first observation, a change of health since the newest sample, and an alert that opens or recovers as transitions; otherwise a heartbeat when the newest sample is 15 minutes old, else state only; what is stored is the whole observation |
| StorageRuns.NeededSampleTurns | src/aurora_core/health_history/ingestion.py:544-594 | whenever a plan asks for a sample, an alert is opened or recovers in the step |
| AlertTimeline.OneLiveAlertPerPair | src/aurora_core/health_history/ingestion.py:909-989 | after any mix of submissions and cleanups at most one alert of a pair is not archived, it has the largest id of its pair, and at most 11 are eligible for archival |
| AlertTimeline.ArchivedBetweenRecoveryAndOpening | src/aurora_core/health_history/lifecycle.py:148-222 | between a recovery and the next opening of a pair there is an archival of the recovered alert, recorded at or past its cooldown, even if clocks go back |
| AlertTimeline.RunIsOrderly | src/aurora_core/health_history/ingestion.py:794-867 | after every run each alert has one opening, archival exactly if archived, all its events in between, and pairs take turns |
| Debouncing.StoredCounterIsRunLength | src/aurora_core/health_history/ingestion.py:1065-1107 | the counter stored in a scope's row after any mix of submissions and cleanups is the run length of that scope's observations since the empty database |
| Debouncing.AlertOpensOnlyAtThreshold | src/aurora_core/health_history/ingestion.py:740-829 | after any mix of submissions and cleanups, a degraded alert opens only after 3 degraded observations of its scope in a row, an unavailable one after 2, none of them intentionally disabled |
| Debouncing.LastingConditionHasAlert | src/aurora_core/health_history/ingestion.py:794-867 | after any mix of submissions and cleanups, when a scope has been degraded for 3 observations in a row or unavailable for 2, an alert of that scope and kind that is not archived exists |
| Debouncing.HealthRecoversTogether | src/aurora_core/health_history/ingestion.py:870-906 | after any mix of submissions and cleanups, a health alert recovers only after 2 healthy observations in a row, and then no alert of its scope is active |
| Debouncing.ConfirmedRecoveryLeavesNone | src/aurora_core/health_history/ingestion.py:870-906 | after any mix of submissions and cleanups, when the debouncer confirms the recovery of a scope, the step leaves no active alert of that scope |
| Debouncing.ActiveGapAlertMeansGap | src/aurora_core/health_history/ingestion.py:519-541 | after any mix of submissions and cleanups an active gap alert implies phase ACTIVE or RECOVERY_ONE |
| AlertRuns.HealthAlertsFollowMachine | src/aurora_core/health_history/ingestion.py:740-906 | after any mix of submissions and cleanups, the unarchived health alerts are exactly those of a reference machine that reads the accepted observations only: raised or cooling down, with its occurrences, its cooldown and its time of recovery |
| AlertRuns.GapAlertsFollowMachine | src/aurora_core/health_history/sampling_gap.py:92-179 | after any mix of submissions and cleanups, the stored phase says whether the accepted observations are in a gap, the largest miss is the one stored, and the unarchived sampling alert is that of the reference machine |
| AlertRuns.MissesRaiseGapAlert | src/aurora_core/health_history/ingestion.py:767-781 | after any mix of submissions and cleanups, an accepted observation with two or more missed intervals leaves an unarchived sampling-gap alert, unless it is a clock discontinuity |
| AlertLog.StepIsLogged | src/aurora_core/health_history/ingestion.py:1110-1213 | the events that a submission adds are dated by it, point to its own sample, and say what their alerts became; no earlier event changes |
| AlertLog.LogDeterminesAlerts | src/aurora_core/health_history/ingestion.py:1110-1213 | after every run, replaying the events of an alert gives its lifecycle, occurrences, cooldown, times and samples |
| HistoryStore.Store.constructor | src/aurora_core/health_history/schema.py:380-390 | a new store holds the six fresh evaluation rows and nothing else |
| HistoryStore.Store.PersistAlertPlan | src/aurora_core/health_history/ingestion.py:1110-1180 | updating the alert and event tables in place computes the specified effect of one plan |
| HistoryStore.Store.ArchiveEligibleAlerts | src/aurora_core/health_history/ingestion.py:961-989 | the loop over the fetched rows archives exactly as specified |
| HistoryStore.Store.InsertHealthSample | src/aurora_core/health_history/ingestion.py:1009-1062 | one sample row under the next id, or none; a used sequence is a constraint violation |
| HistoryStore.Store.UpdateEvaluationRows | src/aurora_core/health_history/ingestion.py:1065-1107 | the loop over the scopes writes each of the six rows exactly once from its old value |
| HistoryStore.Store.MoveCheckpoint | src/aurora_core/health_history/ingestion.py:1234-1281 | the checkpoint and the trimmed ledger as specified; a sequence that does not increase is refused |
| HistoryStore.Store.AdvanceTables | src/aurora_core/health_history/ingestion.py:208-268 | archive, decide, record, persist alerts, move the checkpoint, in this order and in place, computes the specified advance |
| HistoryStore.Store.Transaction | src/aurora_core/health_history/ingestion.py:200-268 | the statements between BEGIN and COMMIT compute the specified transaction or its failure |
| HistoryStore.Store.IngestProjection | src/aurora_core/health_history/ingestion.py:188-282 | all or nothing: the tables and the result are those of the specified submission, and unchanged after any rejection or replay |
| Queries.CollectComponents | src/aurora_core/health_history/queries.py:542-603 | component rows in any order are accepted exactly if there are four different ones, and come back in the fixed order |
| Queries.FixedOrderIsUnique | src/aurora_core/health_history/queries.py:542-603 | only one ordering of the rows fits the fixed order, so it does not depend on how they were read |
| ReaderAgreement.WriterAndReaderAgree | src/aurora_core/health_history/queries.py:542-774 | with recorded times that never decrease, every sample, alert and event row of every run of submissions and cleanups passes the reader's own validators |
| ReaderAgreement.ReaderAcceptsExactly | src/aurora_core/health_history/queries.py:688-774 | over every run of submissions and cleanups and with any clock, samples and events always pass, and an alert passes if and only if it was not recovered earlier than it opened |
| EarlyRecovery.ReaderCanRefuse | src/aurora_core/health_history/queries.py:754-758 | a run of four projected reports, all accepted, whose alert recovered at 5 after it opened at 10 and is refused by the reader |
| Retention.PlanIsHeadOfExpired | src/aurora_core/health_history/maintenance.py:344-423 | the plan made from bounded fetches is the first 500 entries of the full list of expired rows |
| Retention.OnlyHeadMatters | src/aurora_core/health_history/maintenance.py:396-423 | a budget of n rows never reaches past the first n candidates |
| RetentionRuns.HeadIsDeleted | src/aurora_core/health_history/maintenance.py:426-468 | deleting the head of the list succeeds and leaves exactly the tail of the list to delete |
| RetentionRuns.CleanupsWorkOff | src/aurora_core/health_history/maintenance.py:216-277 | k completed calls at one cutoff delete exactly the first 500k entries of the list, in order |
| RetentionRuns.NoWorkExactlyWhenDone | src/aurora_core/health_history/maintenance.py:216-277 | the next call has no work if and only if 500k has reached the length of the list |
| RetentionRuns.ListedExactly | src/aurora_core/health_history/maintenance.py:344-423 | the list names exactly the expired samples, the expired archived alerts, and the events of those alerts |
| RetentionRuns.EventsGoFirst | src/aurora_core/health_history/maintenance.py:396-468 | when an alert is deleted, none of its events is left |
| RetentionRuns.DeletionsKeepTheRest | src/aurora_core/health_history/maintenance.py:426-468 | apart from the deleted rows and cleared references to deleted samples every row stays as it was |
| RetentionEffects.CleanupEffects | src/aurora_core/health_history/maintenance.py:344-468 | one cleanup keeps every recent row with its content, adds nothing, takes away the oldest rows first, and leaves nothing older than the cutoff if it deletes fewer than 500 rows |
| MixedRuns.CleanupCompletes | src/aurora_core/health_history/maintenance.py:426-468 | no planned deletion ever finds its row missing |
| MixedRuns.TrustSurvivesRetention | src/aurora_core/health_history/ingestion.py:188-282 | the trust theorem for any mix of submissions and cleanups |
| MixedRuns.ReplaysSurviveRetention | src/aurora_core/health_history/ingestion.py:350-375 | retained observations are still replayed after their samples were deleted |
| MixedRuns.DeletionsKeepReadable | src/aurora_core/health_history/queries.py:622-774 | cleanups never make a readable row unreadable |
| AlertGenerations.GenerationsAreBounded | src/aurora_core/health_history/lifecycle.py:148-250 | after any mix of submissions and cleanups no alert has more generations than there are accepted observations |
| AlertGenerations.AcceptedBeforeExhaustion | src/aurora_core/health_history/ingestion.py:188-282 | while fewer than 65,535 observations have been accepted, a submission is accepted as new if and only if it is valid, new and free of contradiction |
| RetentionStore.RetentionPlan | src/aurora_core/health_history/maintenance.py:344-423 | the loops over candidates answer the specified plan exactly if everything they fetch is readable and none of their looks at the clock is late, a timeout only if one is late, malformed rows only if one is unreadable |
| RetentionStore.ExecutePlan | src/aurora_core/health_history/maintenance.py:426-468 | row-by-row deletion is the specified deletion, with one look at the clock for each row, and counts its rows by type |
| RetentionStore.RunTransaction | src/aurora_core/health_history/maintenance.py:229-243 | from BEGIN to COMMIT or rollback: the specified cleanup exactly if everything fetched is readable and no look is late, otherwise the tables as they were |
| RetentionStore.CleanupRetention | src/aurora_core/health_history/maintenance.py:216-341 | the rows are gone if and only if the call commits; every sample and archived alert within days * 86,400,000,000 microseconds of now stays with its rows, what goes is the oldest, and all of it if that is fewer than 500 rows; success if and only if the request is valid, everything fetched is readable and no look at the clock is more than a second late; the counts are the rows gone, NO_WORK if and only if nothing was old; malformed rows mean that a fetched row is unreadable, a timeout that some look was late |
| RetentionStore.TimeoutAfterCommit | src/aurora_core/health_history/maintenance.py:240-245 | whenever something readable is expired, some clock makes the call delete it and report a timeout |
| LateCommit.CommittedTimeout | src/aurora_core/health_history/maintenance.py:240-245 | a run from the empty database: one observation, a cleanup two days later that deletes its sample, and a timeout as the answer |
| RetentionTrust.CleanupReadsExactly | src/aurora_core/health_history/maintenance.py:344-423 | after any mix of submissions and cleanups, a cleanup fetches only readable rows if and only if none of the alerts it fetches recovered earlier than it opened, so always while recorded times do not decrease |
| Cadence.NextIsFirstAfter | src/aurora_core/health_history/scheduler.py:136-159 | the next deadline is the first of the grid strictly after now, and the missed count is the number of deadlines passed before it, saturating |
| Cadence.RefusedExactly | src/aurora_core/health_history/scheduler.py:136-159 | a clock reading is refused if and only if it is out of range, goes back, or leaves no further deadline |
| Cadence.OwnDecisionFits | src/aurora_core/health_history/scheduler.py:161-205 | `after_check` accepts every decision that `decision` made and moves the cadence as decided |
| Scheduler.OpportunityIsAccounted | src/aurora_core/health_history/scheduler.py:314-409 | on every path the slots one opportunity uses are the accepted observation, the misses it reports and the misses still pending, except for one slot that finds all sequences used up and exactly what exceeds the bound of the pending count; the next deadline is on the grid and after now |
| Scheduler.SubmittedParts | src/aurora_core/health_history/scheduler.py:340-461 | whatever is submitted is the report read, with the current time and the sequence after the checkpoint just read; a clock discontinuity if and only if the clock is behind the checkpoint, else a startup marker if and only if none was recorded yet, else a heartbeat; the first without misses, the others with all pending ones |
| Scheduler.SlotSubmits | src/aurora_core/health_history/scheduler.py:314-409 | a due slot submits exactly what it has to, if and only if everything it needs can be had; it counts as accepted exactly if the answer says so, and the result names its sequence and misses |
| SchedulerRuns.MarkersOverRun | src/aurora_core/health_history/scheduler.py:454-461 | over every run of a scheduler that starts, the first accepted observation is a startup marker or a clock discontinuity, and every later one a heartbeat or a clock discontinuity |
| SchedulerRuns.SlotsAreConserved | src/aurora_core/health_history/scheduler.py:314-513 | over every run, failures and clock discontinuities included, slots used = accepted observations + misses they report + pending misses + at most one slot lost when sequences run out + what exceeded the bound of the pending count, which is nothing while no more than 65535 slots are used; the next deadline is on the grid |
| SchedulerRuns.ExhaustionIsFinal | src/aurora_core/health_history/scheduler.py:314-350 | once sequences are exhausted nothing changes any more |
| SchedulerService.HealthHistoryScheduler.IsDue | src/aurora_core/health_history/scheduler.py:288-303 | looking at the clock consumes no deadline |
| SchedulerService.HealthHistoryScheduler.CountAcceptedObservation | src/aurora_core/health_history/scheduler.py:462-490 | the checkpoint and the next sequence follow the accepted observation, and the pending misses it reported are cleared, but kept after a clock discontinuity |
| SchedulerService.HealthHistoryScheduler.RefreshResumeState | src/aurora_core/health_history/scheduler.py:501-513 | the checkpoint is taken over, or refused without a change |
| SchedulerService.HealthHistoryScheduler.RunOpportunity | src/aurora_core/health_history/scheduler.py:314-409 | the object's fields and result after one opportunity are those of the specified step |
| SingleWriter.SequencesAreContiguous | src/aurora_core/health_history/scheduler.py:462-513 | with a single writer the accepted sequences are 1, 2, 3 and so on, whatever the surroundings do |
| SingleWriter.NeverStaleNorRepeated | src/aurora_core/health_history/scheduler.py:314-409 | with a single writer nothing submitted is ever stale, conflicting or replayed |
| WriterSlots.WriterSlotsAreConserved | src/aurora_core/health_history/scheduler.py:314-487 | for a single writer under any surroundings, the observations accepted by the database + the misses they report + pending misses + dropped slots = slots used + the slots of exactly those accepted observations whose answer was lost |
| FrameProbing.IoctlWithRetry | src/aurora_core/hardware/capture_frame_probe.py:243-290 | only interruptions are retried, within the common budget and before the deadline; success is reported only if the request was carried out, and giving up names the last answer, the spent budget or the deadline |
| FrameProbing.PollReady | src/aurora_core/hardware/capture_frame_probe.py:292-326 | readiness is reported only if the last poll found the descriptor readable; only interruptions are polled again, and every other outcome names what the last poll answered |
| FrameProbing.ParseFormat | src/aurora_core/hardware/capture_frame_probe.py:382-398 | an accepted format has bounded dimensions and size |
| FrameProbing.ParseBuffer | src/aurora_core/hardware/capture_frame_streaming_probe.py:93-110 | an accepted mapping length is positive and at most the limit |
| CaptureDevice.Device.WipeMapped | src/aurora_core/hardware/capture_frame_streaming_probe.py:478-489 | the mapped buffer may be wiped only while the device cannot be writing to it; every call has to show that |
| ReadWriteProbe.ReadFrame | src/aurora_core/hardware/capture_frame_probe.py:328-370 | only interruptions are read again, at most twice in all and before the deadline; the byte count is that of the last read, and the reason is what the last answer means |
| ReadWriteProbe.WipeBuffer | src/aurora_core/hardware/capture_frame_probe.py:195-210 | a wipe that is reported left zeros only |
| ReadWriteProbe.ProbeOpened | src/aurora_core/hardware/capture_frame_probe.py:107-241 | for every device behaviour the result passes `_consistent_result`, shows the format and byte count that the driver answered and truthfully what was done, at most 4 ioctls are issued, and a claimed wipe left only zeros; validated if and only if a frame was received, wiped and closed; read/write access is reported missing exactly if the device said so; a device that offers it in time has its frame read, and one that answers has been asked |
| StreamingProbe.CleanUp | src/aurora_core/hardware/capture_frame_streaming_probe.py:461-521 | stop or close first, wipe only then, unmap, release, close: the fields tell the truth, nothing that was started, mapped or taken is left untried, except a wipe while the device may still write and a release after an emergency close |
| StreamingProbe.ConsistentExactly | src/aurora_core/hardware/capture_frame.py:115-291 | the result passes its validator if and only if the device answered in neither of the two exceptional ways, for every acquisition and cleanup that are faithful to its answers |
| StreamingProbe.ConsistentWhenClosedAndWholeImage | src/aurora_core/hardware/capture_frame.py:115-291 | the result passes its validator whenever the descriptor was closed and the driver gave at least sizeimage bytes for mapping |
| StreamingProbe.ProbeOpened | src/aurora_core/hardware/capture_frame_streaming_probe.py:213-563 | for every device behaviour: the result passes its validator if and only if the device's answers were not exceptional, in particular whenever the descriptor is closed and the mapping holds a whole image; format and frame as the driver answered them, a frame received if and only if the driver delivered one that fits, validated if and only if cleanup was complete too; the reason names the first thing that cleanup could not do, and no cleanup was left untried; only a character device that offers streaming is asked for more, at most 8 buffers are mapped, and a frame is taken only after a poll found one; at most 14 ioctls before cleanup, every flag true, and a claimed cleanup means that the device cannot write and is closed; a device that cooperates in time gets its stream started and its frame asked for |
| ScriptedProbes.ProbeCooperating | src/aurora_core/hardware/capture_frame_streaming_probe.py:213-563 | on every device that answers as asked up to the start of the stream: it is validated if and only if its frame fits and nothing fails in cleanup, and its result fails the validator if and only if the frame exceeds the mapping or no frame is delivered and the descriptor sticks |
| ScriptedProbes.FrameBeyondMappingArises | src/aurora_core/hardware/capture_frame.py:115-291 | the whole probe on a device that maps 4096 bytes and delivers a frame of 8192: the result fails its validator although everything is cleaned up |
| ScriptedProbes.StuckWithoutFrameArises | src/aurora_core/hardware/capture_frame.py:115-291 | the whole probe on a device whose poll times out and whose release and close fail: the result fails its validator |
| StreamingProbe.WipeMappedFrame | src/aurora_core/hardware/capture_frame_streaming_probe.py:54-64 | the chunked loop leaves every byte zero and reports so |
| CaptureFrameService.VerdictMeaning | src/aurora_core/hardware/capture_frame.py:53-112 | a consistent result is healthy if and only if a frame was received and everything was cleaned up |
| CaptureFrameService.ValidateCaptureFrame | src/aurora_core/hardware/capture_frame.py:294-360 | the command reports healthy if and only if one of the two probes delivered a whole frame and left nothing of it; the second is used exactly if the first finds no read/write access and closes; a reason is replaced exactly if the device answered in one of the two exceptional ways; a device with a frame to read is healthy, and one without read/write access is passed on |
| DdpPackets.HeaderRoundTrip | src/aurora_core/hardware/ddp_output_probe.py:275-310 | a packed header unpacks to its fields |
| DdpPackets.BuiltPlanIsValid | src/aurora_core/hardware/ddp_output_probe.py:275-338 | every built packet plan passes the separate validator |
| DdpPackets.CheckPlan | src/aurora_core/hardware/ddp_output_probe.py:313-338 | the validator's loop accepts exactly the valid plans |
| DdpPackets.ValidPlanIsShown | src/aurora_core/hardware/ddp_output_probe.py:313-338 | a receiver of a valid plan shows exactly the payload, and only after the last packet |
| DdpPackets.FramesAreBuilt | src/aurora_core/hardware/ddp_output_probe.py:357-400 | test and blackout frame of every allowed LED count can be built, in equally many packets, at most 2 |
| DdpPackets.FrameIsUniform | src/aurora_core/hardware/ddp_output_probe.py:357-400 | every LED of a frame has the given colour |
| DdpProbe.SendOnce | src/aurora_core/hardware/ddp_output_probe.py:587-624 | at most one datagram per call, the one given, never at or after the deadline; with time, budget and a socket that works it is sent; `sent` exactly if the socket took it whole, and every other status is explained by what the clock, the budget or the socket answered |
| DdpProbe.ResolvedExactly | src/aurora_core/hardware/ddp_output_probe.py:462-479 | a target is used if and only if exactly one destination resolves and none of the addresses is unsafe; otherwise the refusal names which of this failed |
| DdpProbe.RunTestPhase | src/aurora_core/hardware/ddp_output_probe.py:505-534 | the test packets go out in plan order, those counted as sent were taken whole, and an incomplete count has its reason; the budget outcome does not occur |
| DdpProbe.RunBlackoutPhase | src/aurora_core/hardware/ddp_output_probe.py:536-572 | the blackout packets go out in plan order, on after failed ones, exactly those counted were taken whole, an incomplete count has its reason, and at most 4 datagrams are sent in all |
| DdpProbe.FinishLease | src/aurora_core/hardware/ddp_output_probe.py:136-177 | whatever happened before, the blackout phase is run and then the socket is closed once |
| DdpProbe.DarkAfterBlackout | src/aurora_core/hardware/ddp_output_probe.py:657-686 | a blackout that is reported complete was the last thing sent, every packet whole and in order, and a display shows zeros for all LEDs after it, whatever it showed before |
| DdpProbe.Probe | src/aurora_core/hardware/ddp_output_probe.py:357-460 | on every run, interrupts included, an acquired socket gets its blackout phase before its one close, at most 4 datagrams are sent, none later than two seconds after the start, and the counts reported are those of the test and blackout packets taken whole; when the clock, the one safe target and the socket do not fail, both frames are delivered and the result is validated; every other reason holds of what happened; without hook and interrupts the result passes `_consistent_result` if and only if the clock could be read at the start |
| CaptureModes.WholeFormatsAgree | src/aurora_core/hardware/capture_modes_probe.py:185-236 | a complete report is determined by the driver alone |
| CaptureModes.FormatMeans | src/aurora_core/hardware/capture_modes_probe.py:185-244 | the four characters and the byte order spell the pixel format, the flags are its two lowest bits, and the description is what comes before the first zero |
| CaptureModes.RangesAreOrdered | src/aurora_core/hardware/capture_modes_probe.py:246-394 | reported sizes and intervals are not zero, ranges come first, are ordered, and have a step exactly if they are stepwise |
| ModeEnumeration.Enumeration.Intervals | src/aurora_core/hardware/capture_modes_probe.py:322-394 | the reported intervals are a prefix of the driver's that goes on as far as it can, and are marked complete if and only if they are all of them; a whole list that fits the limits is reported whole, without a gap, in exactly the questions it takes |
| ModeEnumeration.Enumeration.Sizes | src/aurora_core/hardware/capture_modes_probe.py:246-320 | the same for the sizes of a format with their intervals |
| ModeEnumeration.Enumeration.Formats | src/aurora_core/hardware/capture_modes_probe.py:185-236 | the same for the formats of one queue with their sizes and intervals; they are discarded only if an entry is invalid or failing |
| ModeEnumeration.EnumerateModes | src/aurora_core/hardware/capture_modes_probe.py:41-167 | for every driver at most 2048 ioctls and 512 records; every list is a prefix that goes on as far as it can; the report is complete, and then the driver's whole nested tables, if and only if the device is asked and closes, and the driver has tables that fit all limits; the reasons follow |
| ProfileFiles.ReadAll | src/aurora_core/config_profiles/filesystem.py:457-469 | chunks of any size add up to the whole file, or it is refused exactly if it is too large |
| ProfileFiles.FileSystem.WriteNewFile | src/aurora_core/config_profiles/filesystem.py:159-196 | creates the file with exactly this content or never touches one that is there |
| ProfileFiles.FileSystem.AtomicReplace | src/aurora_core/config_profiles/filesystem.py:209-293 | the active file holds the old or the new bytes and the outcome says which; nothing else changes but a temporary file |
| Backups.CreateBackup | src/aurora_core/config_profiles/manifests.py:56-110 | a successful backup is intact, new, and within capacity; no existing backup file is ever changed |
| Backups.LoadBackup | src/aurora_core/config_profiles/manifests.py:158-189 | a loaded backup is one whose manifest vouches for its bytes |
| Activation.PublishWithRecovery | src/aurora_core/config_profiles/service.py:408-469 | after publication and verification, or restoration, the reason says which bytes are active |
| Activation.Apply | src/aurora_core/config_profiles/service.py:180-265 | only a valid id, a capacity of 1 to 100 and a matching confirmation get past the guards, in this order, and otherwise nothing is written; APPLIED means that the profile's bytes are active and an intact new backup records the old ones; FAILED_RESTORED means the previous bytes; when nothing goes wrong the reason is NO_CHANGE, BACKUP_CAPACITY or APPLIED, by the files alone; backups are never overwritten |
| Activation.Rollback | src/aurora_core/config_profiles/service.py:285-356 | the same guards, with the backup's own id as confirmation; ROLLED_BACK means that the backup's bytes are active and an intact new backup records the old ones; when nothing goes wrong the reason is BACKUP_CAPACITY or ROLLED_BACK |
| Activation.ApplyThenRollBack | src/aurora_core/config_profiles/service.py:180-356 | applying a profile and rolling back to the backup made for it restores the original bytes |
| AttemptHistory.NoWindowHoldsMore | src/aurora_core/control_plane/limiter.py:49-74 | acceptances that were each admitted below the limit never exceed it in any window, wherever it ends |
| AttemptHistory.NotMoreKeysThanStamps | src/aurora_core/control_plane/limiter.py:94-105 | there are never more clients with attempts in the window than attempts |
| AttemptLimiter.LoginAttemptLimiter.EvictionIsUnreachable | src/aurora_core/control_plane/limiter.py:61-66 | with maximum_clients at least 16 times the limit there is always room for one more client |
| AttemptLimiter.LoginAttemptLimiter.EvictOldest | src/aurora_core/control_plane/limiter.py:61-66 | eviction removes one record that was seen longest ago |
| AttemptLimiter.LoginAttemptLimiter.BeginAttempt | src/aurora_core/control_plane/limiter.py:49-74 | with that room, an attempt is accepted if and only if the full history admits it, from the first reading of the clock on; the pruned lists stay equal to the window of the full history |
| AttemptLimiter.FirstTwoAttempts | src/aurora_core/control_plane/limiter.py:49-74 | a new limiter accepts the first attempt at whatever its clock shows, and a second one of the same client if and only if the limit allows two or the window has passed the first |
| AttemptLimiter.FirstAttemptAfterClear | src/aurora_core/control_plane/limiter.py:49-79 | a new limiter that is cleared first accepts an attempt at whatever its clock shows |
| AttemptLimiter.LoginAttemptLimiter.JudgedByOwnHistory | src/aurora_core/control_plane/limiter.py:107-112 | with collision-free digests a client is judged by its own accepts since its last clear and by the global count alone |
| AttemptLimiter.LoginAttemptLimiter.GlobalLimitHolds | src/aurora_core/control_plane/limiter.py:49-74 | for all parameters no window holds more than 16 times the attempt limit |
| AttemptLimiter.LoginAttemptLimiter.Clear | src/aurora_core/control_plane/limiter.py:76-79 | clearing forgets one client's attempts but not their share of the global count |
| HealthCache.CachedIsCurrent | src/aurora_core/dashboard/service.py:65-102 | in every interleaving a cached report's collection began after the last invalidation |
| HealthCache.AnswersAreFresh | src/aurora_core/dashboard/service.py:65-102 | a call that started after an invalidation never answers with a report whose collection began before it |
| HealthCache.SweepsNeverOverlap | src/aurora_core/dashboard/service.py:65-95 | two collector sweeps never overlap |
| HealthAnswers.AnswersAreOwnOrRecent | src/aurora_core/dashboard/service.py:65-95 | in every interleaving each answer was collected during its own call, or had been stored for less than the refresh time when the call took the lock |
| HealthAnswers.SweepsOnlyWhenDue | src/aurora_core/dashboard/service.py:67-76 | the collectors are swept only while no report is cached, or one at least as old as the refresh time |
| HealthAnswers.StoredUnlessInvalidated | src/aurora_core/dashboard/service.py:91-94 | a collected report is cached if and only if there was no invalidation since its call looked at the cache, and otherwise nothing is cached |
| HealthAnswers.HitAnswersFromCache | src/aurora_core/dashboard/service.py:67-75 | an uninterrupted call that finds a recent report answers with it and collects nothing |
| HealthAnswers.MissCollectsAnew | src/aurora_core/dashboard/service.py:76-95 | any other uninterrupted call sweeps the collectors, answers with what they report, and caches that |
| HealthAnswers.HolderCanLeave | src/aurora_core/dashboard/service.py:65-95 | in every interleaving the holder of the lock can end its call by itself, even if the collectors fail |
| MutationGate.ControlMutationGate.TryAcquire | src/aurora_core/control_plane/mutation_gate.py:8-20 | the gate is entered by a thread exactly if no other thread holds an acquisition, and then holds one more |
| MutationGate.ControlMutationGate.ReleaseOnce | src/aurora_core/control_plane/mutation_gate.py:8-20 | a release gives back one acquisition of its thread, and nobody else holds any |
| ControlOperations.CallsAreContiguous | src/aurora_core/control_plane/ambient_service.py:278-415 | for any number of threads, in the log of all adapter calls those of one operation are contiguous |
| ControlOperations.InnerLockIsNeverBusy | src/aurora_core/control_plane/wled_service.py:297-331 | behind the gate the operation lock is never found taken |
| ControlOperations.GateIsFullyReleased | src/aurora_core/control_plane/hyperhdr_service.py:314-349 | a thread without a running operation holds no acquisition, and when none runs gate and locks are free |
| ControlOperations.OutcomesTellTheTruth | src/aurora_core/control_plane/ambient_service.py:301-415 | attempted steps are a prefix of the fixed order, verified ones are among them, and COMPLETED is answered exactly when all are verified |
| ControlRecords.OutcomesMatchCalls | src/aurora_core/control_plane/ambient_service.py:278-415 | for any number of threads, the steps reported as verified are exactly those that a logged adapter call confirmed, calls are made for attempted steps in their order, AMBIENT_ON stops at the first unverified step and AMBIENT_OFF only at the very first, and the status says exactly how far the operation got |
| ControlRecords.EveryAttemptIsCalled | src/aurora_core/control_plane/ambient_service.py:301-415 | when no check turns a step away and no adapter is missing, an ambient operation calls an adapter for every step it attempts |
| ControlRecords.AllGoodCompletes | src/aurora_core/control_plane/ambient_service.py:301-415 | when the adapters confirm every call as well, every ambient operation is COMPLETED, or BUSY at the gate |
| ControlProgress.EveryOperationEnds | src/aurora_core/control_plane/ambient_service.py:278-415 | an operation ends within 23 steps of its thread, however the steps of other threads come in between |
| ControlProgress.BusyMeansHeld | src/aurora_core/control_plane/ambient_service.py:278-300 | an operation is called BUSY only while another thread holds the gate |

## Left out

- SQLite itself: connections, PRAGMAs, progress handlers, busy, locked, full and I/O errors and their classification; a transaction either runs through or is rolled back.
- Row ids are unbounded; where the reader bounds them, its theorems assume that they are still in range.
- Inputs with `persistence_succeeded` or `health_collection_succeeded` false: ingestion never passes them.
- The evaluation rows' cooldown column, which nothing uses, and the acknowledgement of alerts, for which there is no operation.
- Component rows are kept inside their sample row; only reading them back models their own table.
- Which raw collector reason becomes which registered code: a normalized report carries registered codes already.
- SHA-256 is an arbitrary function of the canonical text; ingestion is proved for every digest function.
- Conversion of a health report's timestamps and durations to integers: a report carries integers already.
- Paging, cursors and filters of the queries; only the validators of rows are modelled.
- Incremental vacuum, and the order of checks against the deadline inside one SQLite call.
- The orchestration between scheduler and ingestion, its locks and leadership: an observation's outcome is arbitrary, and in `SingleWriter` ingestion's own.
- Rounding of clock readings and durations: they are real numbers.
- Opening a device or socket target: path and address validation, platform checks, ownership and symbolic links; a destination is known by whether it is usable and safe.
- DDP interrupts arrive only at calls to the outside and at hooks, not between two statements.
- The dead exception paths of the mode enumeration that no callee raises.
- YAML and settings validation answer arbitrarily; the manifest format is any codec that parses what it serialized.
- The directory lock and the trusted directory of activation are assumed to work, and closing a file does not fail after its data is written.
- Hooks for tests, except the one before copying, which lets others write files.
- AttemptLimiter.LoginAttemptLimiter.BeginAttempt: does not cover clocks that go back after an acceptance; the source's clock is monotonic.
- HTTP, HTML, the command line, sessions, audit events, and the replies of WLED and HyperHDR, which are arbitrary answers here.
- The reasons attached to ambient results, in which way a first step was refused (all such results are one status here), and the remembered last successes of the health service.
- Which code a failing ioctl of the memory-mapping probe gets; the reasons of its cleanup are modelled.
- Lists, validation and planning of configuration profiles, which only read.
