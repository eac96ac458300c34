/**
 * Writer and reader agree: what ingestion writes, and what cleanups leave of it, passes the separate
 * validators of the read side.
 */
module ReaderAgreement {
  import opened Wrappers
  import opened HealthModels
  import opened Projection
  import opened Lifecycle
  import opened RowOrder
  import opened HistoryTables
  import opened Ingestion
  import opened AlertTable
  import opened AlertPlans
  import opened AlertPlanning
  import opened IngestionSafety
  import opened IngestionRuns
  import opened ExactlyOnce
  import opened Queries
  import opened Retention
  import opened RetentionRuns
  import opened MixedRuns

  /**
   * What the writer guarantees of every alert row.  With `latest`, the newest recorded time of
   * a run whose recorded times never decrease, it also guarantees that openings come first.
   */
  predicate RowInOrder(samples: set<int>, latest: Option<int>, row: AlertRow) {
    && row.acknowledgedAt.None?
    && row.openedAt <= row.state.cooldownUntil
    && (row.state.recoveredAt.Some? ==> row.state.recoveredAt.value <= row.state.cooldownUntil)
    && (row.archivedAt.Some? ==> row.state.cooldownUntil <= row.archivedAt.value)
    && ReferenceExists(samples, row.firstSample) && ReferenceExists(samples, row.latestSample)
    && (row.firstSample.Some? && row.latestSample.Some? ==> row.firstSample.value <= row.latestSample.value)
    && (latest.Some? ==> row.openedAt <= latest.value)
    && (latest.Some? && row.state.recoveredAt.Some? ==> row.openedAt <= row.state.recoveredAt.value)
  }

  predicate EventRowInOrder(samples: set<int>, alerts: map<int, AlertRow>, e: EventRow) {
    && e.alertId in alerts
    && IsTimestamp(e.at)
    && ResultFits(e.event, e.resulting)
    && ReferenceExists(samples, e.supportingSample)
  }

  ghost predicate RowsInOrder(samples: set<int>, latest: Option<int>, alerts: map<int, AlertRow>, events: map<int, EventRow>) {
    && (forall id :: id in alerts ==> RowInOrder(samples, latest, alerts[id]))
    && (forall id :: id in events ==> id >= 1 && EventRowInOrder(samples, alerts, events[id]))
  }

  /** The sample of a step, if it has one, is the newest of all. */
  ghost predicate NewestSample(samples: set<int>, sample: Option<int>) {
    sample.Some? ==> sample.value in samples && forall id :: id in samples ==> id <= sample.value
  }

  predicate LatestIs(latest: Option<int>, now: int) {
    latest.Some? ==> latest.value == now
  }

  lemma MovedRowInOrder(
    samples: set<int>, latest: Option<int>, row: AlertRow, after: AlertState, event: LifecycleEvent, now: int, sample: Option<int>)
    requires AlertConstraints(row) && RowInOrder(samples, latest, row) && LatestIs(latest, now)
    requires Moves(row.state, after, event, now) && NewestSample(samples, sample)
    requires event == RecoveredEvent ==> sample.Some?
    ensures RowInOrder(samples, latest, MovedRow(row, after, event, now, sample))
    ensures ResultFits(event, after.lifecycle)
  {
  }

  lemma OneRowInOrder(
    samples: set<int>, latest: Option<int>, alerts: map<int, AlertRow>, events: map<int, EventRow>,
    id: int, row: AlertRow, n: int, event: EventRow)
    requires RowsInOrder(samples, latest, alerts, events)
    requires RowInOrder(samples, latest, row) && n >= 1 && EventRowInOrder(samples, alerts[id := row], event)
    ensures RowsInOrder(samples, latest, alerts[id := row], events[n := event])
  {
    hide RowInOrder, ResultFits;
  }

  lemma PersistKeepsOrder(db: Db, latest: Option<int>, plan: AlertPlan, now: int, sample: Option<int>)
    requires AlertsOk(db.alerts) && IsTimestamp(now) && LatestIs(latest, now)
    requires PlanReady(db.alerts, plan, now) && SampleAvailable(db, plan, sample)
    requires NewestSample(db.samples.Keys, sample)
    requires RowsInOrder(db.samples.Keys, latest, db.alerts, db.events)
    ensures var after := PersistPlan(db, plan, now, sample);
            after.Success? && RowsInOrder(db.samples.Keys, latest, after.value.alerts, after.value.events)
  {
    if plan.transition.outcome == Applied {
      if Created(plan.transition).Some? {
        CreationKeepsOrder(db, latest, plan, now, sample);
      } else {
        MoveKeepsOrder(db, latest, plan, now, sample);
      }
    }
  }

  lemma CreationKeepsOrder(db: Db, latest: Option<int>, plan: AlertPlan, now: int, sample: Option<int>)
    requires AlertsOk(db.alerts) && IsTimestamp(now) && LatestIs(latest, now)
    requires PlanReady(db.alerts, plan, now) && SampleAvailable(db, plan, sample)
    requires plan.transition.outcome == Applied && Created(plan.transition).Some?
    requires RowsInOrder(db.samples.Keys, latest, db.alerts, db.events)
    ensures var after := PersistPlan(db, plan, now, sample);
            after.Success? && RowsInOrder(db.samples.Keys, latest, after.value.alerts, after.value.events)
  {
    hide RowsInOrder;
    var created, n, id := Created(plan.transition).value, NextId(db.events.Keys), NextId(db.alerts.Keys);
    var row := OpenedRow(created, now, sample.value);
    CreatedAlertFits(db.alerts, created, now, sample.value);
    NextEventId(db, latest);
    hide AlertConstraints, LiveIsNewest;
    OneRowInOrder(db.samples.Keys, latest, db.alerts, db.events, id, row, n, EventRow(id, OpenedEvent, now, sample, Open));
  }

  lemma MoveKeepsOrder(db: Db, latest: Option<int>, plan: AlertPlan, now: int, sample: Option<int>)
    requires AlertsOk(db.alerts) && IsTimestamp(now) && LatestIs(latest, now)
    requires PlanReady(db.alerts, plan, now) && SampleAvailable(db, plan, sample)
    requires plan.transition.outcome == Applied && Created(plan.transition).None?
    requires NewestSample(db.samples.Keys, sample)
    requires RowsInOrder(db.samples.Keys, latest, db.alerts, db.events)
    ensures var after := PersistPlan(db, plan, now, sample);
            after.Success? && RowsInOrder(db.samples.Keys, latest, after.value.alerts, after.value.events)
  {
    var id, state, event := plan.existing.value, plan.transition.state.value, plan.transition.event.value;
    assert RowInOrder(db.samples.Keys, latest, db.alerts[id]);
    hide RowsInOrder;
    var n, row := NextId(db.events.Keys), MovedRow(db.alerts[id], state, event, now, sample);
    MovedAlertFits(db.alerts, id, state, event, now, sample);
    MovedRowInOrder(db.samples.Keys, latest, db.alerts[id], state, event, now, sample);
    NextEventId(db, latest);
    hide LiveIsNewest, MovedRow;
    OneRowInOrder(
      db.samples.Keys, latest, db.alerts, db.events, id, row, n, EventRow(id, event, now, sample, state.lifecycle));
  }

  lemma NextEventId(db: Db, latest: Option<int>)
    requires RowsInOrder(db.samples.Keys, latest, db.alerts, db.events)
    ensures NextId(db.events.Keys) >= 1
  {
  }

  lemma {:induction false} PlansKeepOrder(db: Db, latest: Option<int>, plans: seq<AlertPlan>, now: int, sample: Option<int>)
    requires AlertsOk(db.alerts) && IsTimestamp(now) && LatestIs(latest, now)
    requires AllReady(db.alerts, plans, now)
    requires forall i :: 0 <= i < |plans| ==> SampleAvailable(db, plans[i], sample)
    requires NewestSample(db.samples.Keys, sample)
    requires RowsInOrder(db.samples.Keys, latest, db.alerts, db.events)
    ensures var after := PersistPlans(db, plans, now, sample);
            after.Success? && RowsInOrder(db.samples.Keys, latest, after.value.alerts, after.value.events)
    decreases |plans|
  {
    if plans != [] {
      PersistKeepsOrder(db, latest, plans[0], now, sample);
      var next := NextReady(db, plans, now, sample);
      hide AlertsOk, PersistPlan, RowsInOrder, NewestSample;
      PlansKeepOrder(next, latest, plans[1..], now, sample);
    }
  }

  // ---------- Steps and runs ----------

  lemma OrderPersists(
    samples: set<int>, more: set<int>, latest: Option<int>, later: Option<int>,
    alerts: map<int, AlertRow>, events: map<int, EventRow>)
    requires RowsInOrder(samples, latest, alerts, events) && samples <= more
    requires later.Some? ==> latest.Some? && latest.value <= later.value
    ensures RowsInOrder(more, later, alerts, events)
  {
    hide ResultFits;
    forall id | id in alerts
      ensures RowInOrder(more, later, alerts[id])
    {
      assert RowInOrder(samples, latest, alerts[id]);
    }
    forall id | id in events
      ensures EventRowInOrder(more, alerts, events[id])
    {
      assert EventRowInOrder(samples, alerts, events[id]);
    }
  }

  lemma RecordedSamples(db: Db, p: HealthProjection, d: Decisions)
    ensures db.samples.Keys <= Recorded(db, p, d).samples.Keys
    ensures NewestSample(Recorded(db, p, d).samples.Keys, SampleReference(db, d))
  {
  }

  lemma StepKeepsOrder(hash: Hash, db: Db, p: HealthProjection, latest: Option<int>)
    requires Sound(hash, db) && AcceptsNew(hash, db, p)
    requires RowsInOrder(db.samples.Keys, latest, db.alerts, db.events)
    requires latest.Some? ==> latest.value <= p.recordedAt
    ensures var after := Ingest(hash, db, p).db;
            var later := if latest.Some? then Some(p.recordedAt) else None;
            RowsInOrder(after.samples.Keys, later, after.alerts, after.events)
  {
    hide RowsInOrder, Ingest, AcceptsNew, ValidProjection, WellFormed, Decide, AllReady, PersistPlans, ArchiveEligible;
    hide Recorded, SampleReference, Settled, NewestSample, SampleAvailable;
    var later := if latest.Some? then Some(p.recordedAt) else None;
    var s := AcceptedStep(hash, db, p);
    ValidParts(hash, p);
    var archivals := ArchivalPersistsPlans(db, p.recordedAt);
    OrderPersists(db.samples.Keys, db.samples.Keys, latest, later, db.alerts, db.events);
    ArchivalsNeedNoSample(db, archivals);
    PlansKeepOrder(db, later, archivals, p.recordedAt, None);
    RecordedSamples(s.archived, p, s.decisions);
    RecordedSampleAvailable(s.archived, p, s.decisions);
    OrderPersists(
      s.archived.samples.Keys, s.recorded.samples.Keys, later, later, s.recorded.alerts, s.recorded.events);
    PlansKeepOrder(s.recorded, later, s.decisions.plans, p.recordedAt, s.sample);
  }

  lemma ArchivalsNeedNoSample(db: Db, plans: seq<AlertPlan>)
    requires forall i :: 0 <= i < |plans| ==> plans[i].transition.event == Some(ArchivedEvent)
    ensures forall i :: 0 <= i < |plans| ==> SampleAvailable(db, plans[i], None)
    ensures NewestSample(db.samples.Keys, None)
  {
  }

  // ---------- Cleanups ----------

  lemma ForgottenRowInOrder(samples: set<int>, latest: Option<int>, row: AlertRow, sample: int)
    requires RowInOrder(samples, latest, row)
    ensures RowInOrder(samples - {sample}, latest, ForgetInAlert(row, sample))
  {
  }

  lemma SampleDeletionKeepsOrder(db: Db, latest: Option<int>, sample: int)
    requires RowsInOrder(db.samples.Keys, latest, db.alerts, db.events)
    ensures var after := WithoutSample(db, sample);
            RowsInOrder(after.samples.Keys, latest, after.alerts, after.events)
  {
    hide RowInOrder, ResultFits, ForgetInAlert;
    var after := WithoutSample(db, sample);
    assert after.samples.Keys == db.samples.Keys - {sample};
    forall id | id in after.alerts
      ensures RowInOrder(after.samples.Keys, latest, after.alerts[id])
    {
      ForgottenRowInOrder(db.samples.Keys, latest, db.alerts[id], sample);
    }
    forall id | id in after.events
      ensures EventRowInOrder(after.samples.Keys, after.alerts, after.events[id])
    {
      assert EventRowInOrder(db.samples.Keys, db.alerts, db.events[id]);
    }
  }

  lemma DeletionKeepsOrder(db: Db, latest: Option<int>, action: Deletion, cutoff: int)
    requires RowsInOrder(db.samples.Keys, latest, db.alerts, db.events) && Delete(db, action, cutoff).Some?
    ensures var after := Delete(db, action, cutoff).value;
            RowsInOrder(after.samples.Keys, latest, after.alerts, after.events)
  {
    hide RowInOrder, ResultFits, WithoutSample, EventKeys, ReferenceExists;
    match action {
      case DeleteSample(id) => SampleDeletionKeepsOrder(db, latest, id);
      case DeleteEvent(_, _) =>
      case DeleteAlert(id) => DeletedAlertIsBare(db, cutoff, id);
    }
  }

  lemma {:induction false} DeletionsKeepOrder(db: Db, latest: Option<int>, actions: seq<Deletion>, cutoff: int)
    requires RowsInOrder(db.samples.Keys, latest, db.alerts, db.events) && DeleteAll(db, actions, cutoff).Some?
    ensures var after := DeleteAll(db, actions, cutoff).value;
            RowsInOrder(after.samples.Keys, latest, after.alerts, after.events)
    decreases |actions|
  {
    hide RowsInOrder, Delete;
    if actions != [] {
      DeletionKeepsOrder(db, latest, actions[0], cutoff);
      DeletionsKeepOrder(Delete(db, actions[0], cutoff).value, latest, actions[1..], cutoff);
    }
  }

  // ---------- Runs ----------

  ghost predicate NeverDecreasing(accepted: seq<HealthProjection>) {
    forall i, j :: 0 <= i < j < |accepted| ==> accepted[i].recordedAt <= accepted[j].recordedAt
  }

  /** The newest recorded time, if recorded times are known never to decrease. */
  function NewestTime(dated: bool, accepted: seq<HealthProjection>): Option<int> {
    if !dated then None else if accepted == [] then Some(0) else Some(accepted[|accepted| - 1].recordedAt)
  }

  lemma TimeMoves(dated: bool, accepted: seq<HealthProjection>, p: HealthProjection)
    requires IsTimestamp(p.recordedAt) && (dated ==> NeverDecreasing(accepted + [p]))
    ensures dated ==> NeverDecreasing(accepted) && NewestTime(dated, accepted).value <= p.recordedAt
    ensures NewestTime(dated, accepted + [p]) == if dated then Some(p.recordedAt) else None
  {
    if dated && accepted != [] {
      var all, n := accepted + [p], |accepted|;
      assert all[n - 1].recordedAt <= all[n].recordedAt;
      assert forall i :: 0 <= i < n ==> all[i] == accepted[i];
    }
  }

  ghost predicate RunInOrder(run: Run, dated: bool) {
    RowsInOrder(run.db.samples.Keys, NewestTime(dated, run.accepted), run.db.alerts, run.db.events)
  }

  lemma SubmissionKeepsOrder(hash: Hash, run: Run, p: HealthProjection, dated: bool)
    requires Sound(hash, run.db) && (dated ==> NeverDecreasing(Submit(hash, run, p).accepted))
    requires (dated ==> NeverDecreasing(run.accepted)) ==> RunInOrder(run, dated)
    ensures RunInOrder(Submit(hash, run, p), dated)
  {
    hide Ingest, RowsInOrder, NewestTime, NeverDecreasing, Sound;
    if AcceptsNew(hash, run.db, p) {
      StepMovesCheckpoint(hash, run.db, p);
      ValidParts(hash, p);
      TimeMoves(dated, run.accepted, p);
      UndatedHasNone(dated, run.accepted);
      StepKeepsOrder(hash, run.db, p, NewestTime(dated, run.accepted));
    } else {
      IngestionKeepsTrust(hash, run.db, p);
    }
  }

  lemma CleanupKeepsOrder(hash: Hash, run: Run, cutoff: int, dated: bool)
    requires RunInOrder(run, dated)
    ensures RunInOrder(Operate(hash, run, CleanUp(cutoff)), dated)
  {
    hide RowsInOrder, Plan, NewestTime;
    CleanupCompletes(run.db, cutoff);
    DeletionsKeepOrder(run.db, NewestTime(dated, run.accepted), Plan(run.db, cutoff), cutoff);
  }

  lemma {:induction false} RunKeepsOrder(hash: Hash, operations: seq<Operation>, dated: bool)
    requires dated ==> NeverDecreasing(OperateAll(hash, operations).accepted)
    ensures RunInOrder(OperateAll(hash, operations), dated)
  {
    hide Submit, Cleanup, RunInOrder, NeverDecreasing, Sound, TracksAccepted;
    if operations == [] {
      EmptyInOrder(dated);
    } else {
      var n := |operations| - 1;
      if dated ==> NeverDecreasing(OperateAll(hash, operations[..n]).accepted) {
        RunKeepsOrder(hash, operations[..n], dated);
      }
      match operations[n] {
        case SubmitOne(p) =>
          OperationsKeepSound(hash, operations[..n]);
          SubmissionKeepsOrder(hash, OperateAll(hash, operations[..n]), p, dated);
        case CleanUp(cutoff) =>
          CleanupKeepsOrder(hash, OperateAll(hash, operations[..n]), cutoff, dated);
      }
    }
  }

  lemma EmptyInOrder(dated: bool)
    ensures RunInOrder(Run(EMPTY_DB, []), dated)
  {
  }

  lemma UndatedHasNone(dated: bool, accepted: seq<HealthProjection>)
    ensures NewestTime(dated, accepted).Some? <==> dated
  {
  }

  // ---------- The theorems ----------

  /** Row ids are those that SQLite can hand out. */
  ghost predicate IdsInRange(db: Db) {
    && (forall id :: id in db.samples ==> id <= MAX_OBSERVATION_SEQUENCE)
    && (forall id :: id in db.alerts ==> id <= MAX_OBSERVATION_SEQUENCE)
    && (forall id :: id in db.events ==> id <= MAX_OBSERVATION_SEQUENCE)
  }

  predicate RecoveredAfterOpening(row: AlertRow) {
    row.state.recoveredAt.Some? ==> row.openedAt <= row.state.recoveredAt.value
  }

  lemma OrderedRowReads(samples: set<int>, latest: Option<int>, id: int, row: AlertRow)
    requires AlertConstraints(row) && RowInOrder(samples, latest, row) && IsRowId(id)
    requires forall sample :: sample in samples ==> IsRowId(sample)
    ensures AlertReadable(samples, id, row) <==> RecoveredAfterOpening(row)
  {
  }

  /** Every row passes the reader, save exactly the alerts that recovered at an earlier time than they opened. */
  ghost predicate ReadableSaveEarlyRecoveries(hash: Hash, db: Db) {
    && (forall id :: id in db.samples ==> SampleReadable(hash, id, db.samples[id]))
    && (forall id :: id in db.alerts ==>
          (AlertReadable(db.samples.Keys, id, db.alerts[id]) <==> RecoveredAfterOpening(db.alerts[id])))
    && (forall id :: id in db.events ==>
          db.events[id].alertId in db.alerts && EventReadable(db.samples.Keys, id, db.events[id]))
  }

  lemma EventsRead(db: Db, latest: Option<int>)
    requires RowsInOrder(db.samples.Keys, latest, db.alerts, db.events) && IdsInRange(db)
    requires forall id :: id in db.samples.Keys + db.alerts.Keys ==> IsRowId(id)
    ensures forall id :: id in db.events ==>
              db.events[id].alertId in db.alerts && EventReadable(db.samples.Keys, id, db.events[id])
  {
    hide RowInOrder, ResultFits;
    forall id | id in db.events
      ensures db.events[id].alertId in db.alerts && EventReadable(db.samples.Keys, id, db.events[id])
    {
      assert EventRowInOrder(db.samples.Keys, db.alerts, db.events[id]);
    }
  }

  lemma AlertsRead(db: Db, latest: Option<int>)
    requires RowsInOrder(db.samples.Keys, latest, db.alerts, db.events) && IdsInRange(db) && AlertsOk(db.alerts)
    requires forall id :: id in db.samples.Keys ==> IsRowId(id)
    ensures forall id :: id in db.alerts ==> IsRowId(id)
    ensures forall id :: id in db.alerts ==>
              (AlertReadable(db.samples.Keys, id, db.alerts[id]) <==> RecoveredAfterOpening(db.alerts[id]))
  {
    hide RowInOrder, AlertConstraints, AlertReadable;
    forall id | id in db.alerts
      ensures AlertReadable(db.samples.Keys, id, db.alerts[id]) <==> RecoveredAfterOpening(db.alerts[id])
    {
      OrderedRowReads(db.samples.Keys, latest, id, db.alerts[id]);
    }
  }

  /**
   * After every run, cleanups included and with whatever clock, the reader accepts every sample and
   * every event, and it accepts an alert exactly if the alert was not recovered at an earlier time
   * than it opened.
   */
  lemma ReaderAcceptsExactly(hash: Hash, operations: seq<Operation>)
    requires IdsInRange(OperateAll(hash, operations).db)
    ensures ReadableSaveEarlyRecoveries(hash, OperateAll(hash, operations).db)
  {
    hide OperateAll, NewestTime, TracksAccepted, RowsInOrder, AlertReadable, EventReadable, SampleReadable, IdsInRange, AlertsOk;
    hide SamplesOk, LedgerOk, EvaluationOk, BaselineOk;
    var run := OperateAll(hash, operations);
    OperationsKeepSound(hash, operations);
    RunKeepsOrder(hash, operations, false);
    SamplesRead(hash, run.db);
    AlertsRead(run.db, NewestTime(false, run.accepted));
    EventsRead(run.db, NewestTime(false, run.accepted));
  }

  lemma SamplesRead(hash: Hash, db: Db)
    requires SamplesOk(hash, db.checkpoint.last, db.samples) && IdsInRange(db)
    ensures forall id :: id in db.samples ==> IsRowId(id) && SampleReadable(hash, id, db.samples[id])
  {
  }

  lemma DatedRunsRecoverAfterOpening(run: Run)
    requires RunInOrder(run, true)
    ensures forall id :: id in run.db.alerts ==> RecoveredAfterOpening(run.db.alerts[id])
  {
    hide EventRowInOrder;
    UndatedHasNone(true, run.accepted);
    hide NewestTime;
  }

  /** While recorded times never decrease, the reader accepts everything that ingestion writes and cleanups leave. */
  lemma WriterAndReaderAgree(hash: Hash, operations: seq<Operation>)
    requires IdsInRange(OperateAll(hash, operations).db) && NeverDecreasing(OperateAll(hash, operations).accepted)
    ensures AllReadable(hash, OperateAll(hash, operations).db)
    ensures var db := OperateAll(hash, operations).db; forall id :: id in db.events ==> db.events[id].alertId in db.alerts
  {
    hide OperateAll, SampleReadable, AlertReadable, EventReadable, IdsInRange, RunInOrder, RecoveredAfterOpening;
    ReaderAcceptsExactly(hash, operations);
    RunKeepsOrder(hash, operations, true);
    DatedRunsRecoverAfterOpening(OperateAll(hash, operations));
  }
}
