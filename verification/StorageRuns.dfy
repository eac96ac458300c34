/** Which accepted observations are stored as samples, and as what, over whole runs of submissions. */
module StorageRuns {
  import opened Wrappers
  import opened HealthModels
  import opened Projection
  import opened Lifecycle
  import opened RowOrder
  import opened HistoryTables
  import opened Ingestion
  import opened AlertTable
  import opened AlertPlans
  import opened AlertPlanning
  import opened IngestionSafety
  import opened IngestionRuns
  import opened Compaction
  import opened PlanEffects
  import opened Debouncing

  /** The answer to a new observation, from what it is, what was stored last, and what it does to alerts. */
  function ExpectedAnswer(p: HealthProjection, last: Option<SampleRow>, alertsTurn: bool): IngestionOutcome {
    if p.kind == StartupGap then StartupMarkerStored
    else if p.kind == ClockDiscontinuity then ClockMarkerStored
    else if alertsTurn || last.None? || !Alike(last.value, p) then TransitionStored
    else if p.recordedAt >= last.value.recordedAt + 900_000_000 then HeartbeatStored
    else StateOnly
  }

  /** As what kind of sample an answer has the observation stored. */
  function KindStored(answer: IngestionOutcome): Option<SampleKind> {
    match answer
    case TransitionStored => Some(Transition)
    case HeartbeatStored => Some(Heartbeat)
    case StartupMarkerStored => Some(StartupGap)
    case ClockMarkerStored => Some(ClockDiscontinuity)
    case _ => None
  }

  /** The row has the observation back, and the kind it was stored as. */
  predicate Holds(row: SampleRow, p: HealthProjection, kind: SampleKind) {
    && row.sequence == p.sequence && row.observedAt == p.observedAt && row.recordedAt == p.recordedAt
    && row.overall == p.overall && row.uptime == p.uptime && row.missedIntervals == p.missedIntervals
    && row.acceptedKind == p.kind && row.digest == p.digest && row.components == p.components
    && row.storedKind == kind
  }

  /** Some alert is opened or recovers. */
  ghost predicate AlertsTurn(before: Alerts, after: Alerts) {
    exists id :: id in after
      && (id !in before || (IsActive(before[id].state.lifecycle) && !IsActive(after[id].state.lifecycle)))
  }

  // ---------- Alerts that turn call for a sample ----------

  lemma TurnNeedsSample(
    before: Alerts, archived: Alerts, after: Alerts, d: Decisions, healthPlans: seq<AlertPlan>, gapPlans: seq<AlertPlan>,
    p: HealthProjection)
    requires OnlyArchives(before, archived, p.recordedAt) && Accounted(archived, after, d, healthPlans, gapPlans, p)
    requires AlertsTurn(before, after)
    ensures AnyNeedsSample(d.plans)
  {
    hide VerdictsAnswered, GapAnswered, AllReady;
    var id :| id in after && (id !in before || (IsActive(before[id].state.lifecycle) && !IsActive(after[id].state.lifecycle)));
    assert Explained(archived, after, d.plans, id);
    if id !in archived {
      var i :| 0 <= i < |d.plans| && Adds(d.plans[i], after[id].state);
      assert PlanReady(archived, d.plans[i], p.recordedAt);
      assert NeedsSample(d.plans[i]);
    } else {
      var i :| 0 <= i < |d.plans| && Takes(d.plans[i], id, after[id].state);
      assert PlanReady(archived, d.plans[i], p.recordedAt);
      assert NeedsSample(d.plans[i]);
    }
  }

  lemma NeededSampleTurns(
    before: Alerts, archived: Alerts, after: Alerts, d: Decisions, healthPlans: seq<AlertPlan>, gapPlans: seq<AlertPlan>,
    p: HealthProjection)
    requires OnlyArchives(before, archived, p.recordedAt) && Accounted(archived, after, d, healthPlans, gapPlans, p)
    requires AnyNeedsSample(d.plans)
    ensures AlertsTurn(before, after)
  {
    hide VerdictsAnswered, GapAnswered, AllReady, Explained;
    var i :| 0 <= i < |d.plans| && NeedsSample(d.plans[i]);
    var plan := d.plans[i];
    assert PlanReady(archived, plan, p.recordedAt) && Done(after, plan);
    if Created(plan.transition).Some? {
      var id :| id in after && after[id].state == Created(plan.transition).value;
      if id in archived {
        NewIsNew(archived, after, d, healthPlans, gapPlans, p, id);
      }
      assert id !in before;
    } else {
      var id := plan.existing.value;
      assert id in after && IsActive(archived[id].state.lifecycle) && archived[id] == before[id];
    }
  }

  // ---------- The answer ----------

  /** The sample that an observation is compared with: the newest one. */
  function LastSample(db: Db): Option<SampleRow> {
    if HasEveryScope(db.evaluation) && Baseline(db.evaluation).Some? && Baseline(db.evaluation).value in db.samples then
      Some(db.samples[Baseline(db.evaluation).value])
    else None
  }

  /** The sample with the largest sequence, if there is any. */
  ghost predicate IsNewestSample(samples: Samples, row: Option<SampleRow>) {
    match row
    case None => samples == map[]
    case Some(newest) =>
      && (exists id :: id in samples && samples[id] == newest)
      && (forall id :: id in samples ==> samples[id].sequence <= newest.sequence)
  }

  lemma BaselineIsNewestSample(db: Db)
    requires BaselineIsNewest(db)
    ensures IsNewestSample(db.samples, LastSample(db))
    ensures db.checkpoint.last.None? <==> LastSample(db).None?
  {
  }

  lemma StorageIsExpected(hash: Hash, db: Db, p: HealthProjection, alertsTurn: bool)
    requires HasEveryScope(db.evaluation) && BaselineReference(hash, db) == Success(Baseline(db.evaluation))
    requires db.checkpoint.last.None? <==> LastSample(db).None?
    requires LastSample(db).Some? ==> db.evaluation[Overall].lastHeartbeat == Some(LastSample(db).value.recordedAt)
    requires Baseline(db.evaluation).Some? ==> LastSample(db).Some?
    requires DecideStorage(hash, db, p).Success?
    ensures var storage := DecideStorage(hash, db, p).value;
            var decided := if alertsTurn then ForceTransition(storage) else storage;
            && decided.outcome == ExpectedAnswer(p, LastSample(db), alertsTurn)
            && decided.storedKind == KindStored(decided.outcome)
  {
    if LastSample(db).Some? {
      SameHealthIsAlike(LastSample(db).value, p);
    }
    hide Alike, SameHealth, BaselineReference;
  }

  /** The samples before and after differ in one new row, which holds the observation. */
  ghost predicate AddedAs(before: Samples, after: Samples, p: HealthProjection, kind: SampleKind, id: int) {
    && id !in before && after.Keys == before.Keys + {id} && Holds(after[id], p, kind)
    && forall other :: other in before ==> after[other] == before[other]
  }

  /** The observation is stored as this kind of sample, if at all, and nothing else changes. */
  ghost predicate StoredAs(before: Samples, after: Samples, p: HealthProjection, kind: Option<SampleKind>) {
    match kind
    case None => after == before
    case Some(stored) => exists id :: AddedAs(before, after, p, stored, id)
  }

  lemma RecordedIsStored(db: Db, p: HealthProjection, d: Decisions)
    ensures StoredAs(db.samples, Recorded(db, p, d).samples, p, d.storage.storedKind)
  {
    if d.storage.storedKind.Some? {
      var id := NextId(db.samples.Keys);
      assert AddedAs(db.samples, Recorded(db, p, d).samples, p, d.storage.storedKind.value, id);
    }
  }

  lemma AnswerOfStep(hash: Hash, db: Db, p: HealthProjection, s: Step)
    requires Sound(hash, db) && BaselineIsNewest(db) && StepOf(hash, db, p, s)
    ensures s.decisions.storage.outcome == ExpectedAnswer(p, LastSample(db), AlertsTurn(db.alerts, s.final.alerts))
    ensures StoredAs(db.samples, s.final.samples, p, KindStored(s.decisions.storage.outcome))
  {
    hide *;
    var healthPlans, gapPlans := AccountFor(hash, db, p, s);
    if AlertsTurn(db.alerts, s.final.alerts) {
      TurnNeedsSample(db.alerts, s.archived.alerts, s.final.alerts, s.decisions, healthPlans, gapPlans, p);
    }
    if AnyNeedsSample(s.decisions.plans) {
      NeededSampleTurns(db.alerts, s.archived.alerts, s.final.alerts, s.decisions, healthPlans, gapPlans, p);
    }
    PartsOfStep(hash, db, p, s);
    BaselineIsNewestSample(db);
    StorageIsDecided(hash, s.archived, p);
    BaselineIsRead(hash, s.archived);
    StorageOfDecision(hash, s.archived, p, s.decisions);
    StorageIsExpected(hash, s.archived, p, AlertsTurn(db.alerts, s.final.alerts));
    RecordedIsStored(s.archived, p, s.decisions);
    StagesKeepSamples(db, p, s);
  }

  lemma PartsOfStep(hash: Hash, db: Db, p: HealthProjection, s: Step)
    requires Sound(hash, db) && BaselineIsNewest(db) && StepOf(hash, db, p, s)
    ensures WellFormed(p) && IsTimestamp(p.recordedAt) && Sound(hash, s.archived) && HasEveryScope(s.archived.evaluation)
    ensures ArchiveEligible(db, p.recordedAt) == Success(s.archived)
    ensures Decide(hash, s.archived, p) == Success(s.decisions)
    ensures s.recorded == Recorded(s.archived, p, s.decisions)
    ensures PersistPlans(s.recorded, s.decisions.plans, p.recordedAt, s.sample) == Success(s.alerted)
    ensures WriteCheckpoint(s.alerted, p) == Success(s.final)
    ensures s.archived.samples == db.samples && s.archived.checkpoint == db.checkpoint && LastSample(s.archived) == LastSample(db)
    ensures Baseline(s.archived.evaluation).Some? ==> LastSample(s.archived).Some?
    ensures LastSample(s.archived).Some? ==> s.archived.evaluation[Overall].lastHeartbeat == Some(LastSample(s.archived).value.recordedAt)
  {
    hide ValidProjection, IsNew, ArchiveEligible, Decide, PersistPlans, WriteCheckpoint, SampleReference, Settled, Plannable,
      HasEveryScope, WorstStatus, Recorded, LedgerOk, EvaluationOk, SamplesOk, AlertsOk, IsLatestAt;
    SoundParts(hash, s.archived);
  }

  /**
   * The answer to every new observation: markers are stored as markers; a first observation, a change of
   * health since the newest sample, and an alert that is opened or recovers are stored as transitions; what is
   * then fifteen minutes from the newest sample is stored as a heartbeat; only the rest is not stored at all.
   * What is stored holds the whole observation.
   */
  lemma AnswerIsExpected(hash: Hash, stream: seq<HealthProjection>, p: HealthProjection) returns (last: Option<SampleRow>)
    requires AcceptsNew(hash, RunAll(hash, stream).db, p)
    ensures IsNewestSample(RunAll(hash, stream).db.samples, last)
    ensures var before, r := RunAll(hash, stream).db, Ingest(hash, RunAll(hash, stream).db, p);
            var answer := ExpectedAnswer(p, last, AlertsTurn(before.alerts, r.db.alerts));
            && r.result == Accepted(answer)
            && StoredAs(before.samples, r.db.samples, p, KindStored(answer))
  {
    hide *;
    var db := RunAll(hash, stream).db;
    RunIsSound(hash, stream);
    CompactionIsLossless(hash, stream);
    LosslessHasBaseline(db, RunAll(hash, stream).accepted);
    BaselineIsNewestSample(db);
    var s := AcceptedStep(hash, db, p);
    AnswerOfStep(hash, db, p, s);
    last := LastSample(db);
  }
}
