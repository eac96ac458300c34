/**
 * The history database as ingestion changes it: tables updated in place inside one transaction,
 * which is rolled back unless it commits.  The methods are proved against `Ingestion`.
 */
module HistoryStore {
  import opened Wrappers
  import opened HealthModels
  import opened Projection
  import opened SamplingGap
  import opened Lifecycle
  import opened RowOrder
  import opened HistoryTables
  import opened Ingestion

  /** A transition for each health scope is decided on. */
  lemma DecidedHealth(hash: Hash, db: Db, p: HealthProjection)
    requires WellFormed(p) && HasEveryScope(db.evaluation) && Decide(hash, db, p).Success?
    ensures forall scope: AlertScope :: scope in Decide(hash, db, p).value.health <==> Visited(scope, HEALTH_SCOPE_COUNT)
  {
    hide EvaluateScopes, EvaluateGap, DecideStorage, PlanAlerts, ForceTransition;
  }

  lemma RecordedAtIsTime(p: HealthProjection)
    requires WellFormed(p)
    ensures IsTimestamp(p.recordedAt)
  {
  }

  /** Only the answer to a repeated observation is `Replayed`. */
  lemma ReplayKeepsTables(hash: Hash, db: Db, p: HealthProjection)
    requires ValidProjection(hash, p)
    ensures match Transact(hash, db, p)
            case Success((after, outcome)) => outcome == Replayed ==> after == db
            case Failure(_) => true
  {
    hide ReadCheckpoint, ValidateReplayAnchor, ReplayOrStale, ArchiveEligible, EvaluateScopes, EvaluateGap, PlanAlerts;
    hide BaselineReference, SameHealth, Write, Readable, WellFormed;
  }

  type Rows = map<AlertScope, EvaluationRow>

  /** The rows of the first `n` health scopes are written, the others are not. */
  ghost predicate WrittenSoFar(
    before: Rows, rows: Rows, n: nat, health: HealthTransitions, gap: GapTransition, baseline: Option<int>, heartbeat: Option<int>)
  {
    && rows.Keys == before.Keys
    && forall scope :: scope in before ==>
         rows[scope] == if Visited(scope, n) then WrittenRow(scope, before[scope], health, gap, baseline, heartbeat) else before[scope]
  }

  lemma NoneWritten(rows: Rows, health: HealthTransitions, gap: GapTransition, baseline: Option<int>, heartbeat: Option<int>)
    ensures WrittenSoFar(rows, rows, 0, health, gap, baseline, heartbeat)
  {
  }

  lemma OneMoreWritten(
    before: Rows, rows: Rows, n: nat, health: HealthTransitions, gap: GapTransition, baseline: Option<int>, heartbeat: Option<int>)
    requires n < HEALTH_SCOPE_COUNT && HasEveryScope(before)
    requires WrittenSoFar(before, rows, n, health, gap, baseline, heartbeat)
    ensures var scope := HealthScopeAt(n);
            && scope in rows
            && WrittenSoFar(
                 before, rows[scope := WrittenRow(scope, rows[scope], health, gap, baseline, heartbeat)],
                 n + 1, health, gap, baseline, heartbeat)
  {
    hide WrittenRow, HasEveryScope;
  }

  lemma AllWritten(db: Db, rows: Rows, health: HealthTransitions, gap: GapTransition, baseline: Option<int>, heartbeat: Option<int>)
    requires HasEveryScope(db.evaluation)
    requires WrittenSoFar(db.evaluation, rows, HEALTH_SCOPE_COUNT, health, gap, baseline, heartbeat)
    ensures Sampling in rows
    ensures db.(evaluation := rows[Sampling := WrittenRow(Sampling, rows[Sampling], health, gap, baseline, heartbeat)])
         == WriteEvaluationRows(db, health, gap, baseline, heartbeat)
  {
    hide WrittenRow, HasEveryScope;
    forall scope | scope in db.evaluation
      ensures scope == Sampling || Visited(scope, HEALTH_SCOPE_COUNT)
    {
    }
  }

  function PairOfStored(stored: StoredAlert): (AlertScope, AlertKind) {
    (stored.state.scope, stored.state.kind)
  }

  /** What is left to archive from row `i` on, unfolded once. */
  lemma NextArchived(read: Db, db: Db, rows: seq<RowKey>, i: nat, seen: set<(AlertScope, AlertKind)>, now: int)
    requires i < |rows| && IsTimestamp(now)
    requires forall k :: 0 <= k < |rows| ==> rows[k].2 in read.alerts
    ensures var stored, left := ReadAlert(read, rows[i].2), ArchiveRows(read, db, rows[i..], seen, now);
            if stored.Failure? then left == Failure(stored.error)
            else
              && stored.value.state.Valid()
              && if PairOfStored(stored.value) in seen then left == Failure(MALFORMED)
                 else
                   var after := PersistPlan(db, ArchivePlan(stored.value, now), now, None);
                   if after.Failure? then left == Failure(after.error)
                   else left == ArchiveRows(read, after.value, rows[i + 1..], seen + {PairOfStored(stored.value)}, now)
  {
    hide PersistPlan, ArchivePlan, AlertState.Valid;
    assert rows[i..][0] == rows[i] && rows[i..][1..] == rows[i + 1..];
  }

  lemma NoneToArchive(read: Db, db: Db, rows: seq<RowKey>, seen: set<(AlertScope, AlertKind)>, now: int)
    requires IsTimestamp(now)
    ensures ArchiveRows(read, db, rows[|rows|..], seen, now) == Success(db)
  {
  }

  lemma EligibleAreListed(db: Db, now: int, rows: seq<RowKey>)
    requires rows == Fetch(EligibleKeys(db, now), MAX_RELEVANT_ALERTS + 1)
    ensures forall i :: 0 <= i < |rows| ==> rows[i].2 in db.alerts
  {
    hide Fetch;
  }

  class Store {
    var checkpoint: Checkpoint
    var ledger: seq<ReplayEntry>
    var evaluation: map<AlertScope, EvaluationRow>
    var samples: map<int, SampleRow>
    var alerts: map<int, AlertRow>
    var events: map<int, EventRow>

    function Tables(): Db
      reads this
    {
      Db(checkpoint, ledger, evaluation, samples, alerts, events)
    }

    lemma TablesHold()
      ensures var db := Tables(); db.samples == samples && db.alerts == alerts && db.events == events
    {
    }

    constructor ()
      ensures Tables() == EMPTY_DB
    {
      checkpoint, ledger, evaluation := EMPTY_DB.checkpoint, [], EMPTY_DB.evaluation;
      samples, alerts, events := map[], map[], map[];
    }

    /** Puts all tables back to what they were when the transaction began. */
    method Rollback(begun: Db)
      modifies this
      ensures Tables() == begun
    {
      checkpoint, ledger, evaluation := begun.checkpoint, begun.ledger, begun.evaluation;
      samples, alerts, events := begun.samples, begun.alerts, begun.events;
    }

    method InsertAlertEvent(id: int, event: LifecycleEvent, now: int, sample: Option<int>, resulting: AlertLifecycle)
      modifies this`events
      ensures Tables() == InsertEvent(old(Tables()), id, event, now, sample, resulting)
    {
      events := events[NextId(events.Keys) := EventRow(id, event, now, sample, resulting)];
    }

    /** Carries out one plan; after a failure the caller rolls back. */
    method PersistAlertPlan(plan: AlertPlan, now: int, sample: Option<int>) returns (r: Result<(), Rejection>)
      modifies this`alerts, this`events
      ensures match PersistPlan(old(Tables()), plan, now, sample)
              case Success(after) => r == Success(()) && Tables() == after
              case Failure(e) => r == Failure(e)
    {
      var t := plan.transition;
      if t.outcome == Idempotent {
        return Success(());
      }
      :- Need(t.outcome == Applied, MALFORMED);
      var created := Created(t);
      if created.Some? {
        :- Need(sample.Some?, MALFORMED);
        var id, row := NextId(alerts.Keys), OpenedRow(created.value, now, sample.value);
        :- Need(
          ActiveIds(alerts, created.value.scope, created.value.kind) == {} && sample.value in samples && AlertConstraints(row),
          CONSTRAINT_VIOLATED);
        alerts := alerts[id := row];
        InsertAlertEvent(id, OpenedEvent, now, sample, Open);
      } else {
        :- Need(plan.existing.Some? && t.state.Some? && t.event.Some?, MALFORMED);
        var id, state, event := plan.existing.value, t.state.value, t.event.value;
        :- Need(event != OpenedEvent && event != AcknowledgedEvent && id in alerts, MALFORMED);
        var row := MovedRow(alerts[id], state, event, now, sample);
        :- Need(AlertConstraints(row), CONSTRAINT_VIOLATED);
        alerts := alerts[id := row];
        InsertAlertEvent(id, event, now, sample, state.lifecycle);
      }
      return Success(());
    }

    method PersistAlertPlans(plans: seq<AlertPlan>, now: int, sample: Option<int>) returns (r: Result<(), Rejection>)
      modifies this`alerts, this`events
      ensures match PersistPlans(old(Tables()), plans, now, sample)
              case Success(after) => r == Success(()) && Tables() == after
              case Failure(e) => r == Failure(e)
    {
      for i := 0 to |plans|
        invariant PersistPlans(old(Tables()), plans, now, sample) == PersistPlans(Tables(), plans[i..], now, sample)
      {
        assert plans[i..][1..] == plans[i + 1..];
        var _ :- PersistAlertPlan(plans[i], now, sample);
      }
      return Success(());
    }

    /** Archives the listed alerts, at most one for each pair. */
    method ArchiveListedAlerts(rows: seq<RowKey>, now: int) returns (r: Result<(), Rejection>)
      requires IsTimestamp(now) && forall i :: 0 <= i < |rows| ==> rows[i].2 in alerts
      modifies this`alerts, this`events
      ensures match ArchiveRows(old(Tables()), old(Tables()), rows, {}, now)
              case Success(after) => r == Success(()) && Tables() == after
              case Failure(e) => r == Failure(e)
    {
      hide PersistPlan, ArchivePlan, ReadAlert, AlertState.Valid, ArchiveRows, SameApartFromAlerts;
      var read := Tables();
      var seen: set<(AlertScope, AlertKind)> := {};
      for i := 0 to |rows|
        invariant ArchiveRows(read, read, rows, {}, now) == ArchiveRows(read, Tables(), rows[i..], seen, now)
      {
        NextArchived(read, Tables(), rows, i, seen, now);
        var stored :- ReadAlert(read, rows[i].2);
        var pair := PairOfStored(stored);
        :- Need(pair !in seen, MALFORMED);
        seen := seen + {pair};
        var _ :- PersistAlertPlan(ArchivePlan(stored, now), now, None);
      }
      NoneToArchive(read, Tables(), rows, seen, now);
      return Success(());
    }

    /** Archives the recovered alerts whose cooldown is over. */
    method ArchiveEligibleAlerts(now: int) returns (r: Result<(), Rejection>)
      requires IsTimestamp(now)
      modifies this`alerts, this`events
      ensures match ArchiveEligible(old(Tables()), now)
              case Success(after) => r == Success(()) && Tables() == after
              case Failure(e) => r == Failure(e)
    {
      hide EligibleKeys, Fetch, ArchiveRows, SameApartFromAlerts;
      var rows := Fetch(EligibleKeys(Tables(), now), MAX_RELEVANT_ALERTS + 1);
      EligibleAreListed(Tables(), now, rows);
      if |rows| > MAX_RELEVANT_ALERTS {
        return Failure(MALFORMED);
      }
      r := ArchiveListedAlerts(rows, now);
    }

    /** Adds the sample of an observation, if it gets one. */
    method InsertHealthSample(p: HealthProjection, storedKind: Option<SampleKind>) returns (r: Result<Option<int>, Rejection>)
      modifies this`samples
      ensures r.Failure? <==> storedKind.Some? && !SequenceUnused(old(Tables()), p)
      ensures r.Failure? ==> r.error == CONSTRAINT_VIOLATED
      ensures r.Success? ==>
                && r.value == (if storedKind.Some? then Some(NextId(old(samples).Keys)) else None)
                && samples == (if storedKind.Some? then old(samples)[NextId(old(samples).Keys) := SampleOf(p, storedKind.value)]
                               else old(samples))
    {
      if storedKind.None? {
        return Success(None);
      }
      :- Need(SequenceUnused(Tables(), p), CONSTRAINT_VIOLATED);
      var id := NextId(samples.Keys);
      samples := samples[id := SampleOf(p, storedKind.value)];
      return Success(Some(id));
    }

    /** One row for each health scope in turn, then the row of the sampling scope. */
    method UpdateEvaluationRows(health: HealthTransitions, gap: GapTransition, baseline: Option<int>, heartbeat: Option<int>)
      requires HasEveryScope(evaluation)
      requires forall scope: AlertScope :: scope in health <==> Visited(scope, HEALTH_SCOPE_COUNT)
      modifies this`evaluation
      ensures Tables() == WriteEvaluationRows(old(Tables()), health, gap, baseline, heartbeat)
    {
      hide WrittenRow, HasEveryScope, WriteEvaluationRows, WrittenSoFar, HealthScopeAt;
      NoneWritten(evaluation, health, gap, baseline, heartbeat);
      ghost var before := Tables();
      for i := 0 to HEALTH_SCOPE_COUNT
        invariant WrittenSoFar(before.evaluation, evaluation, i, health, gap, baseline, heartbeat)
      {
        var scope := HealthScopeAt(i);
        OneMoreWritten(before.evaluation, evaluation, i, health, gap, baseline, heartbeat);
        evaluation := evaluation[scope := WrittenRow(scope, evaluation[scope], health, gap, baseline, heartbeat)];
      }
      AllWritten(before, evaluation, health, gap, baseline, heartbeat);
      evaluation := evaluation[Sampling := WrittenRow(Sampling, evaluation[Sampling], health, gap, baseline, heartbeat)];
    }

    method MoveCheckpoint(p: HealthProjection) returns (r: Result<(), Rejection>)
      modifies this`checkpoint, this`ledger
      ensures match WriteCheckpoint(old(Tables()), p)
              case Success(after) => r == Success(()) && Tables() == after
              case Failure(e) => r == Failure(e)
    {
      var entry := EntryOf(p);
      :- Need(checkpoint.last.Some? ==> entry.sequence > checkpoint.last.value.sequence, MALFORMED);
      ledger := InsertInKeyOrder(ledger, entry);
      ledger := TrimLedger(ledger);
      checkpoint := Checkpoint(Some(entry), Saturated(checkpoint.acceptedCount + 1));
      return Success(());
    }

    /** Writes the sample and the evaluation rows of an observation. */
    method RecordObservation(p: HealthProjection, d: Decisions) returns (r: Result<Option<int>, Rejection>)
      requires HasEveryScope(evaluation)
      requires forall scope: AlertScope :: scope in d.health <==> Visited(scope, HEALTH_SCOPE_COUNT)
      modifies this`samples, this`evaluation
      ensures if SampleReference(old(Tables()), d).Some? && !SequenceUnused(old(Tables()), p)
              then r == Failure(CONSTRAINT_VIOLATED)
              else r == Success(SampleReference(old(Tables()), d)) && Tables() == Recorded(old(Tables()), p, d)
    {
      hide HasEveryScope, Visited, SequenceUnused, SampleOf, WriteEvaluationRows;
      var inserted := InsertHealthSample(p, d.storage.storedKind);
      if inserted.Failure? {
        return inserted;
      }
      var sample := inserted.value;
      UpdateEvaluationRows(
        d.health, d.gap,
        if d.storage.updatesBaseline then sample else None,
        if sample.Some? then Some(p.recordedAt) else None);
      return Success(sample);
    }

    /** Writes what was decided. */
    method WriteDecisions(p: HealthProjection, d: Decisions) returns (r: Result<(), Rejection>)
      requires HasEveryScope(evaluation)
      requires forall scope: AlertScope :: scope in d.health <==> Visited(scope, HEALTH_SCOPE_COUNT)
      modifies this
      ensures match Write(old(Tables()), p, d)
              case Success(after) => r == Success(()) && Tables() == after
              case Failure(e) => r == Failure(e)
    {
      hide HasEveryScope, Visited, SequenceUnused, Recorded, SampleReference, PersistPlans, WriteCheckpoint, SameApartFromAlerts;
      var sample :- RecordObservation(p, d);
      var _ :- PersistAlertPlans(d.plans, p.recordedAt, sample);
      r := MoveCheckpoint(p);
    }

    /** A new observation: archive, decide, write. */
    method AdvanceTables(hash: Hash, p: HealthProjection) returns (r: Result<IngestionOutcome, Rejection>)
      requires WellFormed(p) && HasEveryScope(evaluation)
      modifies this
      ensures match Advance(hash, old(Tables()), p)
              case Success((after, outcome)) => r == Success(outcome) && Tables() == after
              case Failure(e) => r == Failure(e)
    {
      hide WellFormed, HasEveryScope, ArchiveEligible, Decide, Write, Visited, SameApartFromAlerts;
      RecordedAtIsTime(p);
      var _ :- ArchiveEligibleAlerts(p.recordedAt);
      var d :- Decide(hash, Tables(), p);
      DecidedHealth(hash, Tables(), p);
      var _ :- WriteDecisions(p, d);
      return Success(d.storage.outcome);
    }

    /** Everything between the beginning and the end of the transaction. */
    method Transaction(hash: Hash, p: HealthProjection) returns (r: Result<IngestionOutcome, Rejection>)
      requires WellFormed(p)
      modifies this
      ensures match Transact(hash, old(Tables()), p)
              case Success((after, outcome)) => r == Success(outcome) && Tables() == after
              case Failure(e) => r == Failure(e)
    {
      hide WellFormed, ReadCheckpoint, ValidateReplayAnchor, ReplayOrStale, Advance, Readable;
      :- ReadCheckpoint(checkpoint);
      :- ValidateReplayAnchor(Tables());
      var replay :- ReplayOrStale(Tables(), p);
      if replay {
        return Success(Replayed);
      }
      :- ReadEvaluationRows(Tables());
      r := AdvanceTables(hash, p);
    }

    /** Persists one observation completely or not at all. */
    method IngestProjection(hash: Hash, p: HealthProjection) returns (result: IngestionResult)
      modifies this
      ensures Ingest(hash, old(Tables()), p) == Ingested(Tables(), result)
    {
      if !ValidProjection(hash, p) {
        return Rejected(Rejection(InvalidProjection, false));
      }
      ReplayKeepsTables(hash, Tables(), p);
      assert WellFormed(p);
      hide Transact, ValidProjection, WellFormed;
      var begun := Tables();
      var r := Transaction(hash, p);
      match r {
        case Success(outcome) =>
          if outcome == Replayed {
            Rollback(begun);
          }
          return Accepted(outcome);
        case Failure(rejection) =>
          Rollback(begun);
          return Rejected(rejection);
      }
    }
  }
}
