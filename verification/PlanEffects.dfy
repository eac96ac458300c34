/** What persisting a list of ready plans does: each plan has its effect, and nothing else changes. */
module PlanEffects {
  import opened Wrappers
  import opened HealthModels
  import opened Lifecycle
  import opened RowOrder
  import opened HistoryTables
  import opened Ingestion
  import opened AlertTable
  import opened AlertPlans

  type Alerts = map<int, AlertRow>

  predicate Moving(plan: AlertPlan) {
    && plan.transition.outcome == Applied && Created(plan.transition).None?
    && plan.existing.Some? && plan.transition.state.Some?
  }

  /** The plan adds an alert in this state. */
  predicate Adds(plan: AlertPlan, state: AlertState) {
    plan.transition.outcome == Applied && Created(plan.transition) == Some(state)
  }

  /** The plan takes this alert to this state. */
  predicate Takes(plan: AlertPlan, id: int, state: AlertState) {
    Moving(plan) && plan.existing.value == id && plan.transition.state.value == state
  }

  /** Row `id` is as before, or one of the plans made it what it is. */
  ghost predicate Explained(before: Alerts, after: Alerts, plans: seq<AlertPlan>, id: int)
    requires id in after
  {
    if id !in before then exists i :: 0 <= i < |plans| && Adds(plans[i], after[id].state)
    else if after[id] == before[id] then true
    else exists i :: 0 <= i < |plans| && Takes(plans[i], id, after[id].state)
  }

  /** The plan has been carried out. */
  ghost predicate Done(after: Alerts, plan: AlertPlan) {
    && (Moving(plan) ==> plan.existing.value in after && after[plan.existing.value].state == plan.transition.state.value)
    && (plan.transition.outcome == Applied && Created(plan.transition).Some? ==>
          exists id :: id in after && after[id].state == Created(plan.transition).value)
  }

  lemma OnePlanWorks(db: Db, plan: AlertPlan, now: int, sample: Option<int>)
    requires AlertsOk(db.alerts) && IsTimestamp(now)
    requires PlanReady(db.alerts, plan, now) && SampleAvailable(db, plan, sample)
    ensures PersistPlan(db, plan, now, sample).Success?
    ensures var after := PersistPlan(db, plan, now, sample).value.alerts;
            && Done(after, plan)
            && (forall id :: id in db.alerts ==> id in after)
            && (forall id :: id in after ==> Explained(db.alerts, after, [plan], id))
  {
    ReadyPlanPersists(db, plan, now, sample);
    var after, t := PersistPlan(db, plan, now, sample).value.alerts, plan.transition;
    if t.outcome == Applied {
      assert [plan][0] == plan;
      if Created(t).Some? {
        var id := NextId(db.alerts.Keys);
        assert id in after && after[id].state == Created(t).value;
      } else {
        MovedAlertFits(db.alerts, plan.existing.value, t.state.value, t.event.value, now, sample);
      }
    }
  }

  /** Later plans move only alerts of other pairs than the first plan's. */
  ghost predicate LaterElsewhere(alerts: Alerts, plans: seq<AlertPlan>)
    requires plans != []
  {
    forall i :: 0 < i < |plans| && Moving(plans[i]) && plans[i].existing.value in alerts ==>
      PairOf(alerts[plans[i].existing.value]) != Target(plans[0])
  }

  lemma TargetsDiffer(alerts: Alerts, plans: seq<AlertPlan>, now: int)
    requires plans != [] && AllReady(alerts, plans[1..], now)
    requires forall i :: 0 < i < |plans| ==> Target(plans[i]) != Target(plans[0])
    ensures LaterElsewhere(alerts, plans)
  {
    forall i | 0 < i < |plans| && Moving(plans[i]) && plans[i].existing.value in alerts
      ensures PairOf(alerts[plans[i].existing.value]) != Target(plans[0])
    {
      assert plans[1..][i - 1] == plans[i];
      assert PlanReady(alerts, plans[i], now);
    }
  }

  lemma ExplainedTogether(before: Alerts, next: Alerts, after: Alerts, plans: seq<AlertPlan>, id: int)
    requires plans != [] && id in after
    requires Explained(next, after, plans[1..], id)
    requires id in next ==> Explained(before, next, [plans[0]], id)
    requires id in before ==> id in next
    requires LaterElsewhere(next, plans) && OnlyPairChanges(before, next, Target(plans[0]))
    ensures Explained(before, after, plans, id)
  {
    if id !in next {
      var i :| 0 <= i < |plans| - 1 && Adds(plans[1..][i], after[id].state);
      assert Adds(plans[i + 1], after[id].state);
    } else if after[id] == next[id] {
      assert [plans[0]][0] == plans[0];
    } else {
      var i :| 0 <= i < |plans| - 1 && Takes(plans[1..][i], id, after[id].state);
      assert Takes(plans[i + 1], id, after[id].state);
    }
  }

  lemma FirstStaysDone(next: Alerts, after: Alerts, plans: seq<AlertPlan>)
    requires plans != [] && Done(next, plans[0])
    requires forall id :: id in next ==> id in after && Explained(next, after, plans[1..], id)
    requires LaterElsewhere(next, plans)
    ensures Done(after, plans[0])
  {
    forall id | id in next && PairOf(next[id]) == Target(plans[0])
      ensures after[id] == next[id]
    {
      assert forall i :: 0 <= i < |plans| - 1 ==> plans[1..][i] == plans[i + 1];
      assert forall i :: 0 <= i < |plans| - 1 ==> !Takes(plans[1..][i], id, after[id].state);
    }
    if Moving(plans[0]) {
      var id := plans[0].existing.value;
      assert id in next && PairOf(next[id]) == Target(plans[0]);
    }
  }

  /** The plans of a list touch different pairs, so each of them has its effect and nothing else changes. */
  lemma {:induction false} PlansWork(db: Db, plans: seq<AlertPlan>, now: int, sample: Option<int>)
    requires AlertsOk(db.alerts) && IsTimestamp(now)
    requires AllReady(db.alerts, plans, now)
    requires forall i :: 0 <= i < |plans| ==> SampleAvailable(db, plans[i], sample)
    ensures PersistPlans(db, plans, now, sample).Success?
    ensures var after := PersistPlans(db, plans, now, sample).value.alerts;
            && (forall id :: id in db.alerts ==> id in after)
            && (forall id :: id in after ==> Explained(db.alerts, after, plans, id))
            && (forall i :: 0 <= i < |plans| ==> Done(after, plans[i]))
    decreases |plans|
  {
    if plans != [] {
      OnePlanWorks(db, plans[0], now, sample);
      ReadyPlanPersists(db, plans[0], now, sample);
      var next := NextReady(db, plans, now, sample);
      PlansWork(next, plans[1..], now, sample);
      hide AlertsOk, PersistPlan, SampleAvailable;
      var after := PersistPlans(next, plans[1..], now, sample).value.alerts;
      TargetsDiffer(next.alerts, plans, now);
      hide AllReady;
      forall id | id in after
        ensures Explained(db.alerts, after, plans, id)
      {
        ExplainedTogether(db.alerts, next.alerts, after, plans, id);
      }
      FirstStaysDone(next.alerts, after, plans);
      assert forall i :: 0 < i < |plans| ==> plans[i] == plans[1..][i - 1];
      hide Done;
    }
  }
}
