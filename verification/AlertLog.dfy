/** The log of alert events determines the alerts: replaying the events of an alert gives back its row. */
module AlertLog {
  import opened Wrappers
  import opened HealthModels
  import opened Projection
  import opened Lifecycle
  import opened RowOrder
  import opened HistoryTables
  import opened Ingestion
  import opened AlertTable
  import opened AlertMachine
  import opened AlertPlans
  import opened AlertPlanning
  import opened IngestionSafety
  import opened IngestionRuns
  import opened ExactlyOnce

  type Alerts = map<int, AlertRow>
  type Events = map<int, EventRow>

  /** What the log knows about an alert: all of its row but scope, kind, severity and generation. */
  datatype Facts = Facts(
    lifecycle: AlertLifecycle,
    occurrences: int,
    cooldownUntil: int,
    openedAt: int,
    recoveredAt: Option<int>,
    archivedAt: Option<int>,
    firstSample: Option<int>,
    latestSample: Option<int>)

  function FactsOf(row: AlertRow): Facts {
    Facts(
      row.state.lifecycle, row.state.occurrences, row.state.cooldownUntil, row.openedAt, row.state.recoveredAt, row.archivedAt,
      row.firstSample, row.latestSample)
  }

  /** One event, on what its alert was before. */
  function Apply(facts: Option<Facts>, e: EventRow): Option<Facts> {
    match (facts, e.event)
    case (None, OpenedEvent) =>
      Some(Facts(Open, 1, CooldownFrom(e.at), e.at, None, None, e.supportingSample, e.supportingSample))
    case (Some(f), OccurrenceUpdatedEvent) =>
      Some(f.(
        occurrences := Saturated(f.occurrences + 1), cooldownUntil := Max(f.cooldownUntil, CooldownFrom(e.at)),
        latestSample := if e.supportingSample.Some? then e.supportingSample else f.latestSample))
    case (Some(f), RecoveredEvent) =>
      Some(f.(
        lifecycle := Recovered, recoveredAt := Some(e.at), cooldownUntil := Max(f.cooldownUntil, CooldownFrom(e.at)),
        latestSample := e.supportingSample))
    case (Some(f), ArchivedEvent) => Some(f.(lifecycle := Archived, archivedAt := Some(e.at)))
    case _ => None
  }

  /** What the events before the `n`-th say about an alert. */
  function Replay(events: Events, alertId: int, n: nat): Option<Facts> {
    if n == 0 then None
    else
      var before := Replay(events, alertId, n - 1);
      if n - 1 in events && events[n - 1].alertId == alertId then Apply(before, events[n - 1]) else before
  }

  /** Every event names the lifecycle that its alert has after it. */
  ghost predicate ResultsFit(alerts: Alerts, events: Events) {
    forall i :: i in events ==>
      && i >= 1 && events[i].alertId in alerts
      && Replay(events, events[i].alertId, i + 1).Some?
      && Replay(events, events[i].alertId, i + 1).value.lifecycle == events[i].resulting
  }

  ghost predicate Logged(alerts: Alerts, events: Events) {
    && ResultsFit(alerts, events)
    && forall id :: id in alerts ==> Replay(events, id, NextId(events.Keys)) == Some(FactsOf(alerts[id]))
  }

  // ---------- One more event ----------

  lemma {:induction false} EarlierReplay(events: Events, i: int, e: EventRow, alertId: int, n: nat)
    requires n <= i
    ensures Replay(events[i := e], alertId, n) == Replay(events, alertId, n)
  {
    if n > 0 {
      EarlierReplay(events, i, e, alertId, n - 1);
    }
  }

  lemma {:induction false} NothingToReplay(events: Events, alertId: int, n: nat)
    requires forall i :: i in events ==> events[i].alertId != alertId
    ensures Replay(events, alertId, n) == None
  {
    if n > 0 {
      NothingToReplay(events, alertId, n - 1);
    }
  }

  lemma NextAfter(events: Events, e: EventRow)
    requires forall i :: i in events ==> i >= 1
    ensures var n := NextId(events.Keys);
            && n >= 1 && n !in events && (forall i :: i in events ==> i < n)
            && NextId(events[n := e].Keys) == n + 1
  {
    var n := NextId(events.Keys);
    assert events[n := e].Keys == events.Keys + {n};
  }

  /** An alert takes the step of its next event, and the log has it. */
  lemma EventIsLogged(alerts: Alerts, events: Events, id: int, row: AlertRow, e: EventRow)
    requires Logged(alerts, events)
    requires e.alertId == id && e.resulting == row.state.lifecycle
    requires Apply(if id in alerts then Some(FactsOf(alerts[id])) else None, e) == Some(FactsOf(row))
    ensures Logged(alerts[id := row], events[NextId(events.Keys) := e])
  {
    hide Apply, FactsOf;
    NextAfter(events, e);
    var n := NextId(events.Keys);
    var alerts', events' := alerts[id := row], events[n := e];
    if id !in alerts {
      NothingToReplay(events, id, n);
    }
    forall other | other in alerts'
      ensures Replay(events', other, n + 1) == Some(FactsOf(alerts'[other]))
    {
      EarlierReplay(events, n, e, other, n);
    }
    forall i | i in events'
      ensures i >= 1 && events'[i].alertId in alerts' && Replay(events', events'[i].alertId, i + 1).Some?
      ensures Replay(events', events'[i].alertId, i + 1).value.lifecycle == events'[i].resulting
    {
      if i == n {
        LifecycleOf(row);
      } else {
        EarlierReplay(events, n, e, events[i].alertId, i + 1);
      }
    }
  }

  lemma LifecycleOf(row: AlertRow)
    ensures FactsOf(row).lifecycle == row.state.lifecycle
  {
  }

  // ---------- Steps and runs ----------

  /** Every new event is dated now and refers to the sample of the step; nothing else happens to the log. */
  ghost predicate LogGrows(before: Events, after: Events, now: int, sample: Option<int>) {
    && (forall i :: i in before ==> i in after && after[i] == before[i])
    && (forall i :: i in after && i !in before ==> after[i].at == now && after[i].supportingSample == sample)
  }

  lemma PersistIsLogged(db: Db, plan: AlertPlan, now: int, sample: Option<int>)
    requires AlertsOk(db.alerts) && IsTimestamp(now)
    requires PlanReady(db.alerts, plan, now) && SampleAvailable(db, plan, sample)
    requires Logged(db.alerts, db.events)
    ensures var after := PersistPlan(db, plan, now, sample);
            after.Success? && Logged(after.value.alerts, after.value.events) && LogGrows(db.events, after.value.events, now, sample)
  {
    ReadyPlanPersists(db, plan, now, sample);
    if plan.transition.outcome == Applied {
      if Created(plan.transition).Some? {
        CreationIsLogged(db, plan, now, sample);
      } else {
        MoveIsLogged(db, plan, now, sample);
      }
    }
  }

  lemma CreationIsLogged(db: Db, plan: AlertPlan, now: int, sample: Option<int>)
    requires AlertsOk(db.alerts) && IsTimestamp(now) && sample.Some? && sample.value in db.samples
    requires PlanReady(db.alerts, plan, now) && plan.transition.outcome == Applied && Created(plan.transition).Some?
    requires Logged(db.alerts, db.events)
    ensures var after := PersistPlan(db, plan, now, sample);
            after.Success? && Logged(after.value.alerts, after.value.events) && LogGrows(db.events, after.value.events, now, sample)
  {
    hide Logged;
    var created, id := Created(plan.transition).value, NextId(db.alerts.Keys);
    CreatedAlertFits(db.alerts, created, now, sample.value);
    hide AlertConstraints, LiveIsNewest;
    EventIsLogged(db.alerts, db.events, id, OpenedRow(created, now, sample.value), EventRow(id, OpenedEvent, now, sample, Open));
  }

  lemma MoveIsLogged(db: Db, plan: AlertPlan, now: int, sample: Option<int>)
    requires AlertsOk(db.alerts) && IsTimestamp(now)
    requires PlanReady(db.alerts, plan, now) && plan.transition.outcome == Applied && Created(plan.transition).None?
    requires Logged(db.alerts, db.events)
    ensures var after := PersistPlan(db, plan, now, sample);
            after.Success? && Logged(after.value.alerts, after.value.events) && LogGrows(db.events, after.value.events, now, sample)
  {
    hide Logged;
    var id, state, event := plan.existing.value, plan.transition.state.value, plan.transition.event.value;
    var row := MovedRow(db.alerts[id], state, event, now, sample);
    MovedAlertFits(db.alerts, id, state, event, now, sample);
    hide AlertConstraints, LiveIsNewest;
    EventIsLogged(db.alerts, db.events, id, row, EventRow(id, event, now, sample, state.lifecycle));
  }

  lemma {:induction false} PlansAreLogged(db: Db, plans: seq<AlertPlan>, now: int, sample: Option<int>)
    requires AlertsOk(db.alerts) && IsTimestamp(now)
    requires AllReady(db.alerts, plans, now)
    requires forall i :: 0 <= i < |plans| ==> SampleAvailable(db, plans[i], sample)
    requires Logged(db.alerts, db.events)
    ensures var after := PersistPlans(db, plans, now, sample);
            after.Success? && Logged(after.value.alerts, after.value.events) && LogGrows(db.events, after.value.events, now, sample)
    decreases |plans|
  {
    hide Logged, AlertsOk, PersistPlan, LogGrows, SampleAvailable;
    if plans == [] {
      NothingGrows(db.events, now, sample);
    } else {
      PersistIsLogged(db, plans[0], now, sample);
      var next := NextReady(db, plans, now, sample);
      PlansAreLogged(next, plans[1..], now, sample);
      GrowsTogether(
        db.events, next.events, PersistPlans(next, plans[1..], now, sample).value.events, now, sample);
    }
  }

  lemma NothingGrows(events: Events, now: int, sample: Option<int>)
    ensures LogGrows(events, events, now, sample)
  {
  }

  lemma GrowsTogether(before: Events, next: Events, after: Events, now: int, sample: Option<int>)
    requires LogGrows(before, next, now, sample) && LogGrows(next, after, now, sample)
    ensures LogGrows(before, after, now, sample)
  {
  }

  lemma ArchivalIsLogged(db: Db, now: int)
    requires AlertsOk(db.alerts) && IsTimestamp(now) && Logged(db.alerts, db.events)
    ensures var after := ArchiveEligible(db, now);
            after.Success? && Logged(after.value.alerts, after.value.events) && LogGrows(db.events, after.value.events, now, None)
  {
    hide Logged, AlertsOk, ArchiveEligible, LogGrows;
    var plans := ArchivalPersistsPlans(db, now);
    PlansAreLogged(db, plans, now, None);
  }

  lemma DecidedIsLogged(db: Db, p: HealthProjection, d: Decisions)
    requires AlertsOk(db.alerts) && IsTimestamp(p.recordedAt) && Plannable(db, p, d)
    requires Logged(db.alerts, db.events)
    ensures var sample := SampleReference(db, d);
            var after := PersistPlans(Recorded(db, p, d), d.plans, p.recordedAt, sample);
            && after.Success? && Logged(after.value.alerts, after.value.events)
            && LogGrows(db.events, after.value.events, p.recordedAt, sample)
  {
    var recorded := Recorded(db, p, d);
    RecordedSampleAvailable(db, p, d);
    assert recorded.alerts == db.alerts && recorded.events == db.events;
    assert AllReady(db.alerts, d.plans, p.recordedAt);
    hide *;
    PlansAreLogged(recorded, d.plans, p.recordedAt, SampleReference(db, d));
  }

  /** The new events of a step: dated when it was recorded; archivals refer to no sample, the others to the step's. */
  ghost predicate StepLogs(before: Events, after: Db, p: HealthProjection) {
    && (forall i :: i in before ==> i in after.events && after.events[i] == before[i])
    && (forall i :: i in after.events && i !in before ==>
          && after.events[i].at == p.recordedAt
          && (after.events[i].supportingSample.Some? ==>
                var sample := after.events[i].supportingSample.value;
                sample in after.samples && after.samples[sample].sequence == p.sequence))
  }

  lemma StepIsLogged(hash: Hash, db: Db, p: HealthProjection)
    requires Sound(hash, db) && AcceptsNew(hash, db, p) && Logged(db.alerts, db.events)
    ensures var after := Ingest(hash, db, p).db; Logged(after.alerts, after.events) && StepLogs(db.events, after, p)
  {
    hide Logged, Ingest, AcceptsNew, ValidProjection, AlertsOk, Recorded, Plannable, AllReady, Settled, Writable, SampleReference,
      ArchiveEligible, Decide, PersistPlans;
    var s := AcceptedStep(hash, db, p);
    ValidParts(hash, p);
    ArchivalIsLogged(db, p.recordedAt);
    DecidedIsLogged(s.archived, p, s.decisions);
    SampleOfStep(db, p, s);
  }

  lemma SampleOfStep(db: Db, p: HealthProjection, s: Step)
    requires IsTimestamp(p.recordedAt) && ArchiveEligible(db, p.recordedAt) == Success(s.archived)
    requires s.recorded == Recorded(s.archived, p, s.decisions) && s.sample == SampleReference(s.archived, s.decisions)
    requires PersistPlans(s.recorded, s.decisions.plans, p.recordedAt, s.sample) == Success(s.alerted)
    requires WriteCheckpoint(s.alerted, p) == Success(s.final)
    ensures s.final.events == s.alerted.events && s.final.alerts == s.alerted.alerts
    ensures s.sample.Some? ==> s.sample.value in s.final.samples && s.final.samples[s.sample.value].sequence == p.sequence
  {
    hide ArchiveEligible, PersistPlans, TrimLedger, InsertInKeyOrder, WrittenRow;
  }

  lemma NothingLogged()
    ensures Logged(EMPTY_DB.alerts, EMPTY_DB.events)
  {
  }

  /**
   * After every run of submissions the log determines the alerts: replaying the events of an alert gives its
   * lifecycle, its occurrences, its cooldown, its times and its samples, and every event says what its alert became.
   */
  lemma {:induction false} LogDeterminesAlerts(hash: Hash, stream: seq<HealthProjection>)
    ensures var db := RunAll(hash, stream).db; Logged(db.alerts, db.events)
  {
    hide Logged, Sound, Ingest;
    if stream == [] {
      NothingLogged();
    } else {
      var n := |stream| - 1;
      var before, p := RunAll(hash, stream[..n]).db, stream[n];
      LogDeterminesAlerts(hash, stream[..n]);
      RunIsSound(hash, stream[..n]);
      if AcceptsNew(hash, before, p) {
        StepIsLogged(hash, before, p);
      } else {
        IngestionKeepsTrust(hash, before, p);
      }
    }
  }
}
