/**
 * The timeline of alert events over whole runs: every alert starts with its opening, ends with
 * its archival after its cooldown, and the next alert of its pair starts only after that.
 */
module AlertTimeline {
  import opened Wrappers
  import opened HealthModels
  import opened Projection
  import opened Lifecycle
  import opened RowOrder
  import opened HistoryTables
  import opened Ingestion
  import opened AlertTable
  import opened AlertPlans
  import opened AlertPlanning
  import opened IngestionSafety
  import opened IngestionRuns
  import opened ExactlyOnce
  import opened MixedRuns

  type Alerts = map<int, AlertRow>
  type Events = map<int, EventRow>

  /** Where each alert's opening and archival stand in the log of events. */
  datatype Timeline = Timeline(opening: map<int, int>, archival: map<int, int>)

  predicate IsEvent(events: Events, i: int, id: int, event: LifecycleEvent) {
    i in events && events[i].alertId == id && events[i].event == event
  }

  /** The alert has an opening; if it is archived, it has an archival at or past its cooldown. */
  predicate AlertInOrder(events: Events, t: Timeline, id: int, row: AlertRow) {
    && id in t.opening && IsEvent(events, t.opening[id], id, OpenedEvent)
    && (id in t.archival <==> !Live(row))
    && (id in t.archival ==>
          && IsEvent(events, t.archival[id], id, ArchivedEvent)
          && row.state.cooldownUntil <= events[t.archival[id]].at)
  }

  /** The event is not before its alert's opening, not after its archival, and not a second one of either. */
  predicate EventInOrder(t: Timeline, i: int, e: EventRow) {
    && e.alertId in t.opening && t.opening[e.alertId] <= i
    && (e.event == OpenedEvent ==> t.opening[e.alertId] == i)
    && (e.alertId in t.archival ==> i <= t.archival[e.alertId])
    && (e.event == ArchivedEvent ==> e.alertId in t.archival)
  }

  /** An alert opens only after all older alerts of its pair are archived. */
  ghost predicate PairsTakeTurns(alerts: Alerts, t: Timeline) {
    forall a, b :: a in alerts && b in alerts && a < b && SamePair(alerts[a], alerts[b]) ==>
      a in t.archival && b in t.opening && t.archival[a] < t.opening[b]
  }

  ghost predicate Orderly(alerts: Alerts, events: Events, t: Timeline) {
    && (forall id :: id in t.opening || id in t.archival ==> id in alerts)
    && (forall id :: id in alerts ==> AlertInOrder(events, t, id, alerts[id]))
    && (forall i :: i in events ==> EventInOrder(t, i, events[i]))
    && PairsTakeTurns(alerts, t)
  }

  /** `n` is a fresh event id after all others. */
  ghost predicate IsNextEvent(events: Events, n: int) {
    n !in events && forall i :: i in events ==> i < n
  }

  // ---------- An alert is opened ----------

  /** The new alert is the newest of all, and every older one of its pair is archived. */
  ghost predicate OpensNewest(alerts: Alerts, id: int, row: AlertRow, event: EventRow) {
    && id !in alerts && (forall other :: other in alerts ==> other < id)
    && (forall other :: other in alerts && SamePair(alerts[other], row) ==> !Live(alerts[other]))
    && Live(row)
    && event.alertId == id && event.event == OpenedEvent
  }

  lemma OpeningTakesTurns(alerts: Alerts, events: Events, t: Timeline, id: int, row: AlertRow, n: int, event: EventRow)
    requires Orderly(alerts, events, t) && OpensNewest(alerts, id, row, event) && IsNextEvent(events, n)
    ensures PairsTakeTurns(alerts[id := row], t.(opening := t.opening[id := n]))
  {
    var alerts', t' := alerts[id := row], t.(opening := t.opening[id := n]);
    forall a, b | a in alerts' && b in alerts' && a < b && SamePair(alerts'[a], alerts'[b])
      ensures a in t'.archival && b in t'.opening && t'.archival[a] < t'.opening[b]
    {
      if b == id {
        assert AlertInOrder(events, t, a, alerts[a]);
      } else {
        assert SamePair(alerts[a], alerts[b]);
      }
    }
  }

  lemma OpeningIsOrderly(alerts: Alerts, events: Events, t: Timeline, id: int, row: AlertRow, n: int, event: EventRow)
    requires Orderly(alerts, events, t) && OpensNewest(alerts, id, row, event) && IsNextEvent(events, n)
    ensures Orderly(alerts[id := row], events[n := event], t.(opening := t.opening[id := n]))
  {
    var alerts', events', t' := alerts[id := row], events[n := event], t.(opening := t.opening[id := n]);
    forall a | a in alerts'
      ensures AlertInOrder(events', t', a, alerts'[a])
    {
      if a != id {
        assert AlertInOrder(events, t, a, alerts[a]);
      }
    }
    forall i | i in events'
      ensures EventInOrder(t', i, events'[i])
    {
      if i != n {
        assert EventInOrder(t, i, events[i]);
      }
    }
    OpeningTakesTurns(alerts, events, t, id, row, n, event);
    hide AlertInOrder, EventInOrder, PairsTakeTurns;
  }

  // ---------- An alert is moved ----------

  /** A live alert moves on; if it is archived, its cooldown is over. */
  ghost predicate MovesOn(alerts: Alerts, id: int, row: AlertRow, event: EventRow) {
    && id in alerts && Live(alerts[id]) && SamePair(alerts[id], row)
    && event.alertId == id && event.event != OpenedEvent
    && (event.event == ArchivedEvent <==> !Live(row))
    && (event.event == ArchivedEvent ==> row.state.cooldownUntil <= event.at)
  }

  function AfterMove(t: Timeline, id: int, n: int, event: EventRow): Timeline {
    if event.event == ArchivedEvent then t.(archival := t.archival[id := n]) else t
  }

  lemma MovingTakesTurns(alerts: Alerts, events: Events, t: Timeline, id: int, row: AlertRow, n: int, event: EventRow)
    requires Orderly(alerts, events, t) && MovesOn(alerts, id, row, event) && IsNextEvent(events, n)
    ensures PairsTakeTurns(alerts[id := row], AfterMove(t, id, n, event))
  {
    var alerts', t' := alerts[id := row], AfterMove(t, id, n, event);
    assert AlertInOrder(events, t, id, alerts[id]);
    forall a, b | a in alerts' && b in alerts' && a < b && SamePair(alerts'[a], alerts'[b])
      ensures a in t'.archival && b in t'.opening && t'.archival[a] < t'.opening[b]
    {
      assert SamePair(alerts[a], alerts[b]);
    }
  }

  lemma MovingIsOrderly(alerts: Alerts, events: Events, t: Timeline, id: int, row: AlertRow, n: int, event: EventRow)
    requires Orderly(alerts, events, t) && MovesOn(alerts, id, row, event) && IsNextEvent(events, n)
    ensures Orderly(alerts[id := row], events[n := event], AfterMove(t, id, n, event))
  {
    var alerts', events', t' := alerts[id := row], events[n := event], AfterMove(t, id, n, event);
    assert AlertInOrder(events, t, id, alerts[id]);
    forall a | a in alerts'
      ensures AlertInOrder(events', t', a, alerts'[a])
    {
      assert AlertInOrder(events, t, a, alerts[a]);
    }
    forall i | i in events'
      ensures EventInOrder(t', i, events'[i])
    {
      if i != n {
        assert EventInOrder(t, i, events[i]);
      }
    }
    MovingTakesTurns(alerts, events, t, id, row, n, event);
    hide AlertInOrder, EventInOrder, PairsTakeTurns;
  }

  // ---------- Steps and runs ----------

  lemma PersistIsOrderly(db: Db, plan: AlertPlan, now: int, sample: Option<int>, t: Timeline) returns (t': Timeline)
    requires AlertsOk(db.alerts) && IsTimestamp(now)
    requires PlanReady(db.alerts, plan, now) && SampleAvailable(db, plan, sample)
    requires Orderly(db.alerts, db.events, t)
    ensures var after := PersistPlan(db, plan, now, sample);
            after.Success? && Orderly(after.value.alerts, after.value.events, t')
  {
    ReadyPlanPersists(db, plan, now, sample);
    t' := t;
    if plan.transition.outcome == Applied {
      if Created(plan.transition).Some? {
        t' := CreationIsOrderly(db, plan, now, sample, t);
      } else {
        t' := MoveIsOrderly(db, plan, now, sample, t);
      }
    }
  }

  lemma CreationIsOrderly(db: Db, plan: AlertPlan, now: int, sample: Option<int>, t: Timeline) returns (t': Timeline)
    requires AlertsOk(db.alerts) && IsTimestamp(now) && sample.Some? && sample.value in db.samples
    requires PlanReady(db.alerts, plan, now) && plan.transition.outcome == Applied
    requires Created(plan.transition).Some?
    requires Orderly(db.alerts, db.events, t)
    ensures var after := PersistPlan(db, plan, now, sample);
            after.Success? && Orderly(after.value.alerts, after.value.events, t')
  {
    hide Orderly;
    var created, n, id := Created(plan.transition).value, NextId(db.events.Keys), NextId(db.alerts.Keys);
    var row := OpenedRow(created, now, sample.value);
    CreatedAlertFits(db.alerts, created, now, sample.value);
    hide AlertConstraints, LiveIsNewest;
    assert row.state == created;
    OpeningIsOrderly(db.alerts, db.events, t, id, row, n, EventRow(id, OpenedEvent, now, sample, Open));
    t' := t.(opening := t.opening[id := n]);
  }

  lemma MoveIsOrderly(db: Db, plan: AlertPlan, now: int, sample: Option<int>, t: Timeline) returns (t': Timeline)
    requires AlertsOk(db.alerts) && IsTimestamp(now)
    requires PlanReady(db.alerts, plan, now) && plan.transition.outcome == Applied
    requires Created(plan.transition).None?
    requires Orderly(db.alerts, db.events, t)
    ensures var after := PersistPlan(db, plan, now, sample);
            after.Success? && Orderly(after.value.alerts, after.value.events, t')
  {
    hide Orderly;
    var id, state, event := plan.existing.value, plan.transition.state.value, plan.transition.event.value;
    var n, row := NextId(db.events.Keys), MovedRow(db.alerts[id], state, event, now, sample);
    var logged := EventRow(id, event, now, sample, state.lifecycle);
    MovedAlertFits(db.alerts, id, state, event, now, sample);
    hide AlertConstraints, LiveIsNewest, MovedRow;
    MovingIsOrderly(db.alerts, db.events, t, id, row, n, logged);
    t' := AfterMove(t, id, n, logged);
  }

  lemma {:induction false} PlansAreOrderly(db: Db, plans: seq<AlertPlan>, now: int, sample: Option<int>, t: Timeline)
    returns (t': Timeline)
    requires AlertsOk(db.alerts) && IsTimestamp(now)
    requires AllReady(db.alerts, plans, now)
    requires forall i :: 0 <= i < |plans| ==> SampleAvailable(db, plans[i], sample)
    requires Orderly(db.alerts, db.events, t)
    ensures var after := PersistPlans(db, plans, now, sample);
            after.Success? && Orderly(after.value.alerts, after.value.events, t')
    decreases |plans|
  {
    t' := t;
    if plans != [] {
      t' := PersistIsOrderly(db, plans[0], now, sample, t);
      var next := NextReady(db, plans, now, sample);
      hide Orderly, AllReady, AlertsOk, PersistPlan;
      t' := PlansAreOrderly(next, plans[1..], now, sample, t');
    }
  }

  lemma ArchivalIsOrderly(db: Db, now: int, t: Timeline) returns (t': Timeline)
    requires AlertsOk(db.alerts) && IsTimestamp(now) && Orderly(db.alerts, db.events, t)
    ensures var after := ArchiveEligible(db, now);
            after.Success? && Orderly(after.value.alerts, after.value.events, t')
  {
    hide Orderly, AlertsOk, ArchiveEligible;
    var plans := ArchivalPersistsPlans(db, now);
    t' := PlansAreOrderly(db, plans, now, None, t);
  }

  lemma DecidedIsOrderly(db: Db, p: HealthProjection, d: Decisions, t: Timeline) returns (t': Timeline)
    requires AlertsOk(db.alerts) && IsTimestamp(p.recordedAt) && Plannable(db, p, d)
    requires Orderly(db.alerts, db.events, t)
    ensures var after := PersistPlans(Recorded(db, p, d), d.plans, p.recordedAt, SampleReference(db, d));
            after.Success? && Orderly(after.value.alerts, after.value.events, t')
  {
    var recorded := Recorded(db, p, d);
    RecordedSampleAvailable(db, p, d);
    assert recorded.alerts == db.alerts && recorded.events == db.events;
    assert AllReady(db.alerts, d.plans, p.recordedAt);
    hide *;
    t' := PlansAreOrderly(recorded, d.plans, p.recordedAt, SampleReference(db, d), t);
  }

  lemma StepIsOrderly(hash: Hash, db: Db, p: HealthProjection, t: Timeline) returns (t': Timeline)
    requires Sound(hash, db) && AcceptsNew(hash, db, p)
    requires Orderly(db.alerts, db.events, t)
    ensures var after := Ingest(hash, db, p).db; Orderly(after.alerts, after.events, t')
  {
    hide Orderly, Ingest, AcceptsNew, ValidProjection, AlertsOk, Recorded, Plannable, AllReady, Settled, Writable;
    var s := AcceptedStep(hash, db, p);
    ValidParts(hash, p);
    t' := ArchivalIsOrderly(db, p.recordedAt, t);
    t' := DecidedIsOrderly(s.archived, p, s.decisions, t');
  }

  lemma {:induction false} RunIsOrderly(hash: Hash, stream: seq<HealthProjection>) returns (t: Timeline)
    ensures var db := RunAll(hash, stream).db; Orderly(db.alerts, db.events, t)
  {
    if stream == [] {
      t := Timeline(map[], map[]);
    } else {
      var n := |stream| - 1;
      var before, p := RunAll(hash, stream[..n]).db, stream[n];
      t := RunIsOrderly(hash, stream[..n]);
      RunIsSound(hash, stream[..n]);
      if AcceptsNew(hash, before, p) {
        t := StepIsOrderly(hash, before, p, t);
      } else {
        IngestionKeepsTrust(hash, before, p);
      }
      hide Orderly, Sound, Ingest;
    }
  }

  /**
   * The alert timeline of every run, also when clocks go back: between a recovery and the next
   * opening of the same pair the recovered alert is archived, at a recorded time at or past its
   * cooldown.
   */
  lemma ArchivedBetweenRecoveryAndOpening(hash: Hash, stream: seq<HealthProjection>, i: int, a: int, j: int, b: int)
    requires var db := RunAll(hash, stream).db;
             && IsEvent(db.events, i, a, RecoveredEvent) && IsEvent(db.events, j, b, OpenedEvent) && i < j
             && a in db.alerts && b in db.alerts && SamePair(db.alerts[a], db.alerts[b])
    ensures var db := RunAll(hash, stream).db;
            exists k :: i < k < j && IsEvent(db.events, k, a, ArchivedEvent)
              && db.alerts[a].state.cooldownUntil <= db.events[k].at
  {
    var db := RunAll(hash, stream).db;
    var t := RunIsOrderly(hash, stream);
    ArchivedBetween(db.alerts, db.events, t, i, a, j, b);
  }

  lemma ArchivedBetween(alerts: Alerts, events: Events, t: Timeline, i: int, a: int, j: int, b: int)
    requires Orderly(alerts, events, t)
    requires IsEvent(events, i, a, RecoveredEvent) && IsEvent(events, j, b, OpenedEvent) && i < j
    requires a in alerts && b in alerts && SamePair(alerts[a], alerts[b])
    ensures exists k :: i < k < j && IsEvent(events, k, a, ArchivedEvent)
              && alerts[a].state.cooldownUntil <= events[k].at
  {
    assert AlertInOrder(events, t, a, alerts[a]) && AlertInOrder(events, t, b, alerts[b]);
    assert EventInOrder(t, i, events[i]) && EventInOrder(t, j, events[j]);
    if b < a {
      OlderIsArchivedFirst(alerts, events, t, b, a);
    }
    if a < b {
      OlderIsArchivedFirst(alerts, events, t, a, b);
      assert IsEvent(events, t.archival[a], a, ArchivedEvent);
    }
  }

  lemma OlderIsArchivedFirst(alerts: Alerts, events: Events, t: Timeline, older: int, newer: int)
    requires Orderly(alerts, events, t)
    requires older in alerts && newer in alerts && older < newer && SamePair(alerts[older], alerts[newer])
    ensures older in t.archival && older in t.opening && newer in t.opening
    ensures t.opening[older] <= t.archival[older] < t.opening[newer]
    ensures forall i :: i in events && events[i].alertId == older ==> i <= t.archival[older]
    ensures forall i :: i in events && events[i].alertId == newer ==> t.opening[newer] <= i
  {
    assert AlertInOrder(events, t, older, alerts[older]) && AlertInOrder(events, t, newer, alerts[newer]);
    assert EventInOrder(t, t.archival[older], events[t.archival[older]]);
    forall i | i in events
      ensures EventInOrder(t, i, events[i])
    {
    }
  }

  /** In every reachable database, cleanups or not, at most one alert per pair is not archived, and it is the newest. */
  lemma OneLiveAlertPerPair(hash: Hash, operations: seq<Operation>, now: int)
    ensures var db := OperateAll(hash, operations).db;
            LiveIsNewest(db.alerts) && |EligibleKeys(db, now)| <= MAX_RELEVANT_ALERTS
  {
    hide OperateAll, TracksAccepted, LedgerOk, EvaluationOk, SamplesOk, BaselineOk, AlertConstraints, EligibleKeys, LiveIsNewest;
    OperationsKeepSound(hash, operations);
    EligibleAreBounded(OperateAll(hash, operations).db, now);
  }
}
