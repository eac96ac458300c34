/** Plans that fit the alert table can all be persisted, and persisting them keeps the table sound. */
module AlertPlans {
  import opened Wrappers
  import opened HealthModels
  import opened Lifecycle
  import opened RowOrder
  import opened HistoryTables
  import opened Ingestion
  import opened AlertTable
  import opened AlertMachine

  /** One lawful move of an existing alert. */
  predicate Moves(before: AlertState, after: AlertState, event: LifecycleEvent, now: int) {
    && before.Valid() && after.Valid()
    && before.lifecycle != Archived
    && before.cooldownUntil <= after.cooldownUntil
    && match event
       case OccurrenceUpdatedEvent =>
         after == before.(
           occurrences := Saturated(before.occurrences + 1), cooldownUntil := Max(before.cooldownUntil, CooldownFrom(now)))
       case RecoveredEvent =>
         && IsActive(before.lifecycle)
         && now <= after.cooldownUntil
         && after == before.(
              lifecycle := Recovered, recoveredAt := Some(now), cooldownUntil := Max(before.cooldownUntil, CooldownFrom(now)))
       case ArchivedEvent =>
         && before.lifecycle == Recovered
         && before.cooldownUntil <= now
         && after == before.(lifecycle := Archived)
       case _ => false
  }

  /** The plan adds this alert. */
  ghost predicate CreateFits(alerts: map<int, AlertRow>, created: AlertState, now: int) {
    && created.Valid() && created.lifecycle == Open
    && created.occurrences == 1 && created.cooldownUntil == CooldownFrom(now) && now <= created.cooldownUntil
    && forall id :: id in alerts && OfPair(alerts[id], created.scope, created.kind) ==> !Live(alerts[id])
  }

  /** The plan can be carried out on this table. */
  ghost predicate PlanReady(alerts: map<int, AlertRow>, plan: AlertPlan, now: int) {
    var t := plan.transition;
    match t.outcome
    case RefusedOutcome => false
    case Idempotent => !NeedsSample(plan)
    case Applied =>
      if Created(t).Some? then
        t.event == Some(OpenedEvent) && CreateFits(alerts, Created(t).value, now)
      else
        && plan.existing.Some? && plan.existing.value in alerts
        && t.state.Some? && t.event.Some?
        && Moves(alerts[plan.existing.value].state, t.state.value, t.event.value, now)
  }

  /** The pair of scope and kind that a plan is about. */
  function Target(plan: AlertPlan): (AlertScope, AlertKind) {
    var t := plan.transition;
    match if Created(t).Some? then Created(t) else t.state
    case Some(state) => (state.scope, state.kind)
    case None => (Sampling, SamplingGapAlert)
  }

  /** Only alerts of one pair differ, and none disappears. */
  ghost predicate OnlyPairChanges(before: map<int, AlertRow>, after: map<int, AlertRow>, pair: (AlertScope, AlertKind)) {
    && (forall id :: id in before ==> id in after)
    && (forall id :: id in before && !OfPair(before[id], pair.0, pair.1) ==> after[id] == before[id])
    && (forall id :: id in after && !OfPair(after[id], pair.0, pair.1) ==> id in before && after[id] == before[id])
  }

  lemma CreatedAlertFits(alerts: map<int, AlertRow>, created: AlertState, now: int, sample: int)
    requires AlertsOk(alerts) && CreateFits(alerts, created, now) && IsTimestamp(now)
    ensures var row := OpenedRow(created, now, sample);
            var after := alerts[NextId(alerts.Keys) := row];
            && ActiveIds(alerts, created.scope, created.kind) == {}
            && AlertConstraints(row)
            && AlertsOk(after)
            && OnlyPairChanges(alerts, after, (created.scope, created.kind))
  {
    var id, row := NextId(alerts.Keys), OpenedRow(created, now, sample);
    assert row.state == created;
    assert id !in alerts && id >= 1;
  }

  lemma MovedAlertFits(
    alerts: map<int, AlertRow>, id: int, after: AlertState, event: LifecycleEvent, now: int, sample: Option<int>)
    requires AlertsOk(alerts) && id in alerts && IsTimestamp(now)
    requires Moves(alerts[id].state, after, event, now)
    ensures var row := MovedRow(alerts[id], after, event, now, sample);
            && row.state == after
            && AlertConstraints(row)
            && AlertsOk(alerts[id := row])
            && OnlyPairChanges(alerts, alerts[id := row], (after.scope, after.kind))
  {
    var row := MovedRow(alerts[id], after, event, now, sample);
    assert row.state == after;
    assert SamePair(row, alerts[id]) && Live(alerts[id]);
    var moved := alerts[id := row];
    forall i, j | i in moved && j in moved && Live(moved[i]) && SamePair(moved[i], moved[j])
      ensures j <= i
    {
      assert Live(alerts[i]) && SamePair(alerts[i], alerts[j]);
    }
  }

  /** The sample that the plan's event refers to is there if the plan calls for one. */
  predicate SampleAvailable(db: Db, plan: AlertPlan, sample: Option<int>) {
    NeedsSample(plan) ==> sample.Some? && sample.value in db.samples
  }

  lemma ReadyPlanPersists(db: Db, plan: AlertPlan, now: int, sample: Option<int>)
    requires AlertsOk(db.alerts) && IsTimestamp(now)
    requires PlanReady(db.alerts, plan, now) && SampleAvailable(db, plan, sample)
    ensures PersistPlan(db, plan, now, sample).Success?
    ensures var after := PersistPlan(db, plan, now, sample).value;
            AlertsOk(after.alerts) && OnlyPairChanges(db.alerts, after.alerts, Target(plan))
  {
    var t := plan.transition;
    if t.outcome == Applied {
      if Created(t).Some? {
        CreatedAlertFits(db.alerts, Created(t).value, now, sample.value);
      } else {
        MovedAlertFits(db.alerts, plan.existing.value, t.state.value, t.event.value, now, sample);
      }
    }
  }

  /** Persisting a plan leaves plans for other pairs as ready as they were. */
  lemma OtherPlanStaysReady(
    before: map<int, AlertRow>, after: map<int, AlertRow>, pair: (AlertScope, AlertKind), plan: AlertPlan, now: int)
    requires OnlyPairChanges(before, after, pair)
    requires PlanReady(before, plan, now) && Target(plan) != pair
    ensures PlanReady(after, plan, now)
  {
    var t := plan.transition;
    if t.outcome == Applied && Created(t).None? {
      var id := plan.existing.value;
      assert PairOf(before[id]) == Target(plan);
      assert !OfPair(before[id], pair.0, pair.1);
    }
  }

  ghost predicate AllReady(alerts: map<int, AlertRow>, plans: seq<AlertPlan>, now: int) {
    && (forall i :: 0 <= i < |plans| ==> PlanReady(alerts, plans[i], now))
    && (forall i, j :: 0 <= i < j < |plans| ==> Target(plans[i]) != Target(plans[j]))
  }

  lemma {:induction false} ReadyPlansPersist(db: Db, plans: seq<AlertPlan>, now: int, sample: Option<int>)
    requires AlertsOk(db.alerts) && IsTimestamp(now)
    requires AllReady(db.alerts, plans, now)
    requires forall i :: 0 <= i < |plans| ==> SampleAvailable(db, plans[i], sample)
    ensures PersistPlans(db, plans, now, sample).Success?
    ensures AlertsOk(PersistPlans(db, plans, now, sample).value.alerts)
    decreases |plans|
  {
    if plans != [] {
      ReadyPlanPersists(db, plans[0], now, sample);
      var next := PersistPlan(db, plans[0], now, sample).value;
      forall i | 0 <= i < |plans| - 1
        ensures PlanReady(next.alerts, plans[1..][i], now)
      {
        OtherPlanStaysReady(db.alerts, next.alerts, Target(plans[0]), plans[i + 1], now);
      }
      ReadyPlansPersist(next, plans[1..], now, sample);
    }
  }

  /** After the first plan the others are still ready. */
  lemma NextReady(db: Db, plans: seq<AlertPlan>, now: int, sample: Option<int>) returns (next: Db)
    requires plans != [] && AlertsOk(db.alerts) && IsTimestamp(now)
    requires AllReady(db.alerts, plans, now)
    requires forall i :: 0 <= i < |plans| ==> SampleAvailable(db, plans[i], sample)
    ensures PersistPlan(db, plans[0], now, sample) == Success(next)
    ensures AlertsOk(next.alerts) && AllReady(next.alerts, plans[1..], now)
    ensures forall i :: 0 <= i < |plans| - 1 ==> SampleAvailable(next, plans[1..][i], sample)
  {
    ReadyPlanPersists(db, plans[0], now, sample);
    next := PersistPlan(db, plans[0], now, sample).value;
    hide PersistPlan, AlertsOk, PlanReady;
    forall i | 0 <= i < |plans| - 1
      ensures PlanReady(next.alerts, plans[1..][i], now)
    {
      OtherPlanStaysReady(db.alerts, next.alerts, Target(plans[0]), plans[i + 1], now);
    }
  }

  // ---------- Archival ----------

  /** Every row of the listing can still be archived, each for a pair of its own. */
  ghost predicate ArchivalPending(read: Db, db: Db, rows: seq<RowKey>, seen: set<(AlertScope, AlertKind)>, now: int) {
    && (forall i :: 0 <= i < |rows| ==>
          && rows[i].2 in read.alerts && rows[i].2 in db.alerts
          && db.alerts[rows[i].2] == read.alerts[rows[i].2]
          && db.alerts[rows[i].2].state.lifecycle == Recovered
          && db.alerts[rows[i].2].state.cooldownUntil <= now
          && PairOf(db.alerts[rows[i].2]) !in seen)
    && (forall i, j :: 0 <= i < j < |rows| ==> PairOf(db.alerts[rows[i].2]) != PairOf(db.alerts[rows[j].2]))
  }

  function PairOf(row: AlertRow): (AlertScope, AlertKind) {
    (row.state.scope, row.state.kind)
  }

  /** An alert is either left alone or archived after its cooldown. */
  ghost predicate OnlyArchives(before: map<int, AlertRow>, after: map<int, AlertRow>, now: int) {
    && before.Keys == after.Keys
    && forall id :: id in before ==>
         || after[id] == before[id]
         || (before[id].state.lifecycle == Recovered && before[id].state.cooldownUntil <= now
             && after[id] == before[id].(state := before[id].state.(lifecycle := Archived), archivedAt := Some(now)))
  }

  lemma ArchivePlanIsReady(alerts: map<int, AlertRow>, stored: StoredAlert, now: int)
    requires AlertsOk(alerts) && IsTimestamp(now)
    requires stored.id in alerts && stored.state == alerts[stored.id].state
    requires stored.state.lifecycle == Recovered && stored.state.cooldownUntil <= now
    ensures var plan := ArchivePlan(stored, now);
            && PlanReady(alerts, plan, now)
            && plan.transition.event == Some(ArchivedEvent)
            && Target(plan) == PairOf(alerts[stored.id])
  {
  }

  lemma ArchivePersists(db: Db, stored: StoredAlert, now: int)
    requires AlertsOk(db.alerts) && IsTimestamp(now)
    requires stored.id in db.alerts && stored.state == db.alerts[stored.id].state
    requires stored.state.lifecycle == Recovered && stored.state.cooldownUntil <= now
    ensures PersistPlan(db, ArchivePlan(stored, now), now, None).Success?
    ensures var after := PersistPlan(db, ArchivePlan(stored, now), now, None).value;
            && AlertsOk(after.alerts)
            && OnlyPairChanges(db.alerts, after.alerts, PairOf(db.alerts[stored.id]))
            && OnlyArchives(db.alerts, after.alerts, now)
            && !Live(after.alerts[stored.id])
  {
    ArchivePlanIsReady(db.alerts, stored, now);
    ReadyPlanPersists(db, ArchivePlan(stored, now), now, None);
  }

  /** After one archival the rest of the listing is still pending. */
  lemma RestIsPending(
    read: Db, db: Db, next: Db, rows: seq<RowKey>, seen: set<(AlertScope, AlertKind)>, now: int)
    requires rows != [] && ArchivalPending(read, db, rows, seen, now)
    requires OnlyPairChanges(db.alerts, next.alerts, PairOf(db.alerts[rows[0].2]))
    ensures ArchivalPending(read, next, rows[1..], seen + {PairOf(db.alerts[rows[0].2])}, now)
    ensures forall i :: 0 < i < |rows| ==> next.alerts[rows[i].2] == db.alerts[rows[i].2]
  {
    forall i | 0 < i < |rows|
      ensures rows[i].2 in next.alerts && next.alerts[rows[i].2] == db.alerts[rows[i].2]
    {
      var id, pair := rows[i].2, PairOf(db.alerts[rows[0].2]);
      assert PairOf(db.alerts[rows[0].2]) != PairOf(db.alerts[id]);
      assert id in db.alerts && !OfPair(db.alerts[id], pair.0, pair.1);
    }
  }

  /** Archiving some alerts and then others is archiving. */
  lemma ArchivesTogether(before: map<int, AlertRow>, next: map<int, AlertRow>, after: map<int, AlertRow>, now: int)
    requires OnlyArchives(before, next, now) && OnlyArchives(next, after, now)
    ensures OnlyArchives(before, after, now)
    ensures forall id :: id in next && !Live(next[id]) ==> !Live(after[id])
  {
  }

  lemma FirstIsPending(read: Db, db: Db, rows: seq<RowKey>, seen: set<(AlertScope, AlertKind)>, now: int)
    requires rows != [] && ArchivalPending(read, db, rows, seen, now) && AlertsOk(read.alerts)
    ensures rows[0].2 in db.alerts && db.alerts[rows[0].2].state.lifecycle == Recovered
    ensures db.alerts[rows[0].2].state.cooldownUntil <= now
    ensures rows[0].2 in read.alerts && read.alerts[rows[0].2] == db.alerts[rows[0].2]
    ensures PairOf(db.alerts[rows[0].2]) !in seen
    ensures read.alerts[rows[0].2].state.Valid()
    ensures ReadAlert(read, rows[0].2) == Success(StoredAlert(rows[0].2, read.alerts[rows[0].2].state))
  {
    hide LiveIsNewest;
    var id := rows[0].2;
    assert id in read.alerts && id >= 1;
  }

  lemma NothingPending(alerts: map<int, AlertRow>, now: int)
    ensures OnlyArchives(alerts, alerts, now)
  {
  }

  lemma {:induction false} PendingAlertsAreArchived(
    read: Db, db: Db, rows: seq<RowKey>, seen: set<(AlertScope, AlertKind)>, now: int)
    requires AlertsOk(read.alerts) && AlertsOk(db.alerts) && IsTimestamp(now)
    requires ArchivalPending(read, db, rows, seen, now)
    ensures ArchiveRows(read, db, rows, seen, now).Success?
    ensures var after := ArchiveRows(read, db, rows, seen, now).value;
            && AlertsOk(after.alerts)
            && OnlyArchives(db.alerts, after.alerts, now)
            && forall i :: 0 <= i < |rows| ==> rows[i].2 in after.alerts && !Live(after.alerts[rows[i].2])
    decreases |rows|
  {
    hide AlertsOk, ArchivalPending, OnlyArchives, OnlyPairChanges, PersistPlan, ArchivePlan, ReadAlert, Live, SameApartFromAlerts;
    if rows == [] {
      NothingPending(db.alerts, now);
    } else {
      FirstIsPending(read, db, rows, seen, now);
      var stored := StoredAlert(rows[0].2, read.alerts[rows[0].2].state);
      ArchivePersists(db, stored, now);
      var pair := PairOf(db.alerts[stored.id]);
      var next := PersistPlan(db, ArchivePlan(stored, now), now, None).value;
      RestIsPending(read, db, next, rows, seen, now);
      PendingAlertsAreArchived(read, next, rows[1..], seen + {pair}, now);
      var after := ArchiveRows(read, next, rows[1..], seen + {pair}, now).value;
      ArchivesTogether(db.alerts, next.alerts, after.alerts, now);
      assert forall i :: 0 < i < |rows| ==> rows[i] == rows[1..][i - 1];
    }
  }

  lemma EligibleDifferInPair(db: Db, now: int, a: RowKey, b: RowKey)
    requires AlertsOk(db.alerts)
    requires a in EligibleKeys(db, now) && b in EligibleKeys(db, now) && a != b
    ensures PairOf(db.alerts[a.2]) != PairOf(db.alerts[b.2])
  {
    var left, right := db.alerts[a.2], db.alerts[b.2];
    assert PairOf(left) == PairOf(right) ==> SamePair(left, right) && SamePair(right, left);
  }

  lemma EligibleArePending(db: Db, now: int)
    requires AlertsOk(db.alerts)
    ensures ArchivalPending(db, db, Sorted(EligibleKeys(db, now)), {}, now)
  {
    hide AlertsOk, Sorted;
    var rows := Sorted(EligibleKeys(db, now));
    forall i | 0 <= i < |rows|
      ensures rows[i] in EligibleKeys(db, now)
    {
    }
    forall i, j | 0 <= i < j < |rows|
      ensures PairOf(db.alerts[rows[i].2]) != PairOf(db.alerts[rows[j].2])
    {
      assert Before(rows[i], rows[j]);
      EligibleDifferInPair(db, now, rows[i], rows[j]);
    }
  }

  lemma NoneLeftEligible(before: Db, after: Db, now: int)
    requires OnlyArchives(before.alerts, after.alerts, now)
    requires forall k :: k in EligibleKeys(before, now) ==> !Live(after.alerts[k.2])
    ensures EligibleKeys(after, now) == {}
  {
    forall id | id in after.alerts
      ensures !(after.alerts[id].state.lifecycle == Recovered && after.alerts[id].state.cooldownUntil <= now)
    {
      assert after.alerts[id].state.lifecycle == Recovered && after.alerts[id].state.cooldownUntil <= now ==>
          (before.alerts[id].state.cooldownUntil, 0, id) in EligibleKeys(before, now);
    }
  }

  /**
   * Archival never fails and archives exactly the recovered alerts whose cooldown is over, so
   * the cap on their number is never the reason for a rejection.
   */
  lemma ArchivalSucceeds(db: Db, now: int)
    requires AlertsOk(db.alerts) && IsTimestamp(now)
    ensures ArchiveEligible(db, now).Success?
    ensures var after := ArchiveEligible(db, now).value;
            && AlertsOk(after.alerts)
            && OnlyArchives(db.alerts, after.alerts, now)
            && EligibleKeys(after, now) == {}
  {
    EligibleAreBounded(db, now);
    EligibleArePending(db, now);
    var rows := Sorted(EligibleKeys(db, now));
    PendingAlertsAreArchived(db, db, rows, {}, now);
    var after := ArchiveRows(db, db, rows, {}, now).value;
    forall k | k in EligibleKeys(db, now)
      ensures !Live(after.alerts[k.2])
    {
      assert k in rows;
    }
    NoneLeftEligible(db, after, now);
  }

  // ---------- Archival is persistence of ready plans too ----------

  ghost predicate ListsValid(alerts: map<int, AlertRow>, rows: seq<RowKey>) {
    forall i :: 0 <= i < |rows| ==> rows[i].2 in alerts && alerts[rows[i].2].state.Valid()
  }

  function StoredAt(alerts: map<int, AlertRow>, row: RowKey): StoredAlert
    requires row.2 in alerts
  {
    StoredAlert(row.2, alerts[row.2].state)
  }

  ghost function ArchivePlans(alerts: map<int, AlertRow>, rows: seq<RowKey>, now: int): (plans: seq<AlertPlan>)
    requires IsTimestamp(now) && ListsValid(alerts, rows)
    ensures |plans| == |rows|
    ensures forall i :: 0 <= i < |rows| ==> plans[i] == ArchivePlan(StoredAt(alerts, rows[i]), now)
  {
    if rows == [] then [] else [ArchivePlan(StoredAt(alerts, rows[0]), now)] + ArchivePlans(alerts, rows[1..], now)
  }

  lemma PendingIsValid(read: Db, db: Db, rows: seq<RowKey>, seen: set<(AlertScope, AlertKind)>, now: int)
    requires AlertsOk(read.alerts) && ArchivalPending(read, db, rows, seen, now)
    ensures ListsValid(read.alerts, rows)
  {
    forall i | 0 <= i < |rows|
      ensures rows[i].2 in read.alerts && read.alerts[rows[i].2].state.Valid()
    {
      var id := rows[i].2;
      assert id in read.alerts && id >= 1;
    }
  }

  lemma {:induction false} ArchiveRowsPersistPlans(
    read: Db, db: Db, rows: seq<RowKey>, seen: set<(AlertScope, AlertKind)>, now: int)
    requires AlertsOk(read.alerts) && AlertsOk(db.alerts) && IsTimestamp(now)
    requires ArchivalPending(read, db, rows, seen, now) && ListsValid(read.alerts, rows)
    ensures ArchiveRows(read, db, rows, seen, now) ==
              PersistPlans(db, ArchivePlans(read.alerts, rows, now), now, None)
    decreases |rows|
  {
    hide AlertsOk, ArchivalPending, OnlyArchives, OnlyPairChanges, PersistPlan, ArchivePlan, ReadAlert, Live, SameApartFromAlerts;
    if rows != [] {
      var stored := StoredAt(read.alerts, rows[0]);
      FirstIsPending(read, db, rows, seen, now);
      ArchivePersists(db, stored, now);
      var pair := PairOf(db.alerts[stored.id]);
      var next := PersistPlan(db, ArchivePlan(stored, now), now, None).value;
      RestIsPending(read, db, next, rows, seen, now);
      ArchiveRowsPersistPlans(read, next, rows[1..], seen + {pair}, now);
      var plans := ArchivePlans(read.alerts, rows, now);
      assert plans[0] == ArchivePlan(stored, now) && plans[1..] == ArchivePlans(read.alerts, rows[1..], now);
    }
  }

  /** Archival persists a list of ready archive plans, one for each eligible pair. */
  lemma ArchivalPersistsPlans(db: Db, now: int) returns (plans: seq<AlertPlan>)
    requires AlertsOk(db.alerts) && IsTimestamp(now)
    ensures AllReady(db.alerts, plans, now)
    ensures forall i :: 0 <= i < |plans| ==> plans[i].transition.event == Some(ArchivedEvent)
    ensures ArchiveEligible(db, now) == PersistPlans(db, plans, now, None)
  {
    hide AlertsOk, EligibleKeys, Sorted, ArchivalPending, ListsValid, PlanReady, Target, ArchivePlans, ArchiveRows, PersistPlans,
      SameApartFromAlerts, AllReady;
    EligibleAreBounded(db, now);
    EligibleArePending(db, now);
    var rows := Sorted(EligibleKeys(db, now));
    PendingIsValid(db, db, rows, {}, now);
    plans := ArchivePlans(db.alerts, rows, now);
    PendingPlansAreReady(db, rows, plans, now);
    ArchiveRowsPersistPlans(db, db, rows, {}, now);
    ArchiveEligibleReads(db, now, rows);
  }

  lemma ArchiveEligibleReads(db: Db, now: int, rows: seq<RowKey>)
    requires IsTimestamp(now) && rows == Sorted(EligibleKeys(db, now)) && |EligibleKeys(db, now)| <= MAX_RELEVANT_ALERTS
    ensures forall i :: 0 <= i < |rows| ==> rows[i].2 in db.alerts
    ensures ArchiveEligible(db, now) == ArchiveRows(db, db, rows, {}, now)
  {
    hide Sorted, ArchiveRows, SameApartFromAlerts;
    forall i | 0 <= i < |rows|
      ensures rows[i].2 in db.alerts
    {
      assert rows[i] in EligibleKeys(db, now);
    }
  }

  lemma PendingPlansAreReady(db: Db, rows: seq<RowKey>, plans: seq<AlertPlan>, now: int)
    requires AlertsOk(db.alerts) && IsTimestamp(now) && ArchivalPending(db, db, rows, {}, now) && ListsValid(db.alerts, rows)
    requires plans == ArchivePlans(db.alerts, rows, now)
    ensures AllReady(db.alerts, plans, now)
    ensures forall i :: 0 <= i < |plans| ==> plans[i].transition.event == Some(ArchivedEvent)
  {
    hide AlertsOk, PlanReady, Target, ArchivePlan, ArchivePlans;
    forall i | 0 <= i < |rows|
      ensures PlanReady(db.alerts, plans[i], now)
      ensures plans[i].transition.event == Some(ArchivedEvent)
      ensures Target(plans[i]) == PairOf(db.alerts[rows[i].2])
    {
      ArchivePlanIsReady(db.alerts, StoredAt(db.alerts, rows[i]), now);
    }
  }
}
