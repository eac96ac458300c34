/** On a sound table with nothing left to archive, planning yields ready plans or runs out of generations. */
module AlertPlanning {
  import opened Wrappers
  import opened HealthModels
  import opened Projection
  import opened Evaluation
  import opened SamplingGap
  import opened Lifecycle
  import opened RowOrder
  import opened HistoryTables
  import opened Ingestion
  import opened AlertTable
  import opened AlertPlans

  const EXHAUSTED := Rejection(GenerationExhausted, false)

  /** A sound alert table in which no cooldown is over. */
  ghost predicate Settled(db: Db, now: int) {
    && AlertsOk(db.alerts)
    && EligibleKeys(db, now) == {}
    && IsTimestamp(now)
  }

  /** Some alert cannot be followed by another generation. */
  ghost predicate GenerationsUsedUp(alerts: map<int, AlertRow>) {
    exists id :: id in alerts && alerts[id].state.generation == MAX_BOUNDED_COUNTER
  }

  /** An alert that the plan adds is the first of its pair, or one generation after the alert it follows. */
  predicate NextGeneration(alerts: map<int, AlertRow>, plan: AlertPlan) {
    var created := Created(plan.transition);
    plan.transition.outcome == Applied && created.Some? ==>
      match plan.existing
      case None => created.value.generation == 1
      case Some(id) => id in alerts && created.value.generation == alerts[id].state.generation + 1
  }

  ghost predicate PlanOrExhausted(db: Db, r: Result<AlertPlan, Rejection>, target: (AlertScope, AlertKind), now: int) {
    match r
    case Success(plan) => PlanReady(db.alerts, plan, now) && Target(plan) == target && NextGeneration(db.alerts, plan)
    case Failure(e) => e == EXHAUSTED && GenerationsUsedUp(db.alerts)
  }

  ghost predicate PlansOrExhausted(db: Db, r: Result<seq<AlertPlan>, Rejection>, scopes: iset<AlertScope>, now: int) {
    match r
    case Success(plans) =>
      && AllReady(db.alerts, plans, now)
      && forall i :: 0 <= i < |plans| ==> Target(plans[i]).0 in scopes && NextGeneration(db.alerts, plans[i])
    case Failure(e) => e == EXHAUSTED && GenerationsUsedUp(db.alerts)
  }

  lemma NotEligible(db: Db, now: int, id: int)
    requires Settled(db, now) && id in db.alerts && db.alerts[id].state.lifecycle == Recovered
    ensures now < db.alerts[id].state.cooldownUntil
  {
    assert (db.alerts[id].state.cooldownUntil, 0, id) !in EligibleKeys(db, now);
  }

  lemma FirstOpeningIsReady(db: Db, scope: AlertScope, kind: AlertKind, now: int)
    requires IsTimestamp(now) && PairFits(scope, kind) && IsCurrentOfPair(db, scope, kind, None)
    ensures var plan := AlertPlan(None, OpenOrUpdate(None, AlertRequest(OpenAlert, scope, kind, now)));
            PlanReady(db.alerts, plan, now) && Target(plan) == (scope, kind) && NextGeneration(db.alerts, plan)
  {
  }

  lemma ReopeningIsReady(db: Db, stored: StoredAlert, now: int)
    requires Settled(db, now)
    requires IsCurrentOfPair(db, stored.state.scope, stored.state.kind, Some(stored))
    ensures var t := OpenOrUpdate(
              Some(stored.state), AlertRequest(OpenAlert, stored.state.scope, stored.state.kind, now));
            var plan := AlertPlan(Some(stored.id), t);
            if t.outcome == RefusedOutcome then GenerationsUsedUp(db.alerts)
            else
              && PlanReady(db.alerts, plan, now) && Target(plan) == (stored.state.scope, stored.state.kind)
              && NextGeneration(db.alerts, plan)
  {
    if stored.state.lifecycle == Recovered {
      NotEligible(db, now, stored.id);
    }
  }

  lemma OpenIsPlanned(db: Db, scope: AlertScope, kind: AlertKind, now: int)
    requires Settled(db, now) && PairFits(scope, kind)
    ensures PlanOrExhausted(db, PlanOpen(db, scope, kind, now), (scope, kind), now)
  {
    CurrentIsRead(db, scope, kind);
    match CurrentOrLatest(db, scope, kind).value {
      case None => FirstOpeningIsReady(db, scope, kind, now);
      case Some(stored) => ReopeningIsReady(db, stored, now);
    }
  }

  lemma EscalationIsPlanned(db: Db, stored: StoredAlert, now: int)
    requires Settled(db, now)
    requires stored.id in db.alerts && stored.state == db.alerts[stored.id].state
    requires IsActive(stored.state.lifecycle) && stored.state.kind == DegradedAlert
    requires forall id :: id in db.alerts ==> !OfPair(db.alerts[id], stored.state.scope, UnavailableAlert)
    ensures var t := EvaluateAutomaticAlert(
              Some(stored.state), AlertRequest(EscalateAlert, stored.state.scope, DegradedAlert, now));
            if t.outcome == RefusedOutcome then GenerationsUsedUp(db.alerts)
            else
              && t.event == Some(OpenedEvent)
              && PlanReady(db.alerts, AlertPlan(Some(stored.id), t), now)
              && Target(AlertPlan(Some(stored.id), t)) == (stored.state.scope, UnavailableAlert)
              && NextGeneration(db.alerts, AlertPlan(Some(stored.id), t))
  {
  }

  lemma {:induction false} DegradedIsFound(stored: seq<StoredAlert>)
    ensures match FirstDegraded(stored)
            case None => forall i :: 0 <= i < |stored| ==> stored[i].state.kind != DegradedAlert
            case Some(found) => found in stored && found.state.kind == DegradedAlert
  {
    if stored != [] {
      DegradedIsFound(stored[1..]);
    }
  }

  lemma ConditionIsPlanned(db: Db, scope: AlertScope, kind: AlertKind, now: int)
    requires Settled(db, now) && scope != Sampling && kind != SamplingGapAlert
    ensures PlanOrExhausted(db, PlanCondition(db, scope, kind, now), (scope, kind), now)
  {
    OpenIsPlanned(db, scope, kind, now);
    if kind == UnavailableAlert {
      CurrentIsRead(db, scope, UnavailableAlert);
      ActiveHealthIsRead(db, scope);
      var active := ActiveHealthAlerts(db, scope).value;
      DegradedIsFound(active);
      if CurrentOrLatest(db, scope, UnavailableAlert).value.None? && FirstDegraded(active).Some? {
        EscalationIsPlanned(db, FirstDegraded(active).value, now);
      }
    }
  }

  lemma RecoveryIsPlanned(db: Db, stored: StoredAlert, now: int)
    requires Settled(db, now)
    requires stored.id in db.alerts && stored.state == db.alerts[stored.id].state
    requires IsActive(stored.state.lifecycle)
    ensures PlanRecovery(stored, now).Success?
    ensures var plan := PlanRecovery(stored, now).value;
            && PlanReady(db.alerts, plan, now) && Target(plan) == (stored.state.scope, stored.state.kind)
            && NextGeneration(db.alerts, plan)
  {
  }

  lemma {:induction false} RecoveriesArePlanned(db: Db, stored: seq<StoredAlert>, now: int)
    requires Settled(db, now)
    requires forall i :: 0 <= i < |stored| ==>
               && stored[i].id in db.alerts && stored[i].state == db.alerts[stored[i].id].state
               && IsActive(stored[i].state.lifecycle)
    ensures PlanRecoveries(stored, now).Success?
    ensures var plans := PlanRecoveries(stored, now).value;
            && |plans| == |stored|
            && forall i :: 0 <= i < |stored| ==>
                 && PlanReady(db.alerts, plans[i], now) && NextGeneration(db.alerts, plans[i])
                 && Target(plans[i]) == (stored[i].state.scope, stored[i].state.kind)
  {
    if stored != [] {
      RecoveryIsPlanned(db, stored[0], now);
      RecoveriesArePlanned(db, stored[1..], now);
    }
  }

  lemma ScopeRecoveryIsPlanned(db: Db, scope: AlertScope, now: int)
    requires Settled(db, now) && scope != Sampling
    ensures var active := ActiveHealthAlerts(db, scope);
            active.Success? && PlansOrExhausted(db, PlanRecoveries(active.value, now), iset{scope}, now)
  {
    ActiveHealthIsRead(db, scope);
    RecoveriesArePlanned(db, ActiveHealthAlerts(db, scope).value, now);
  }

  lemma ScopeIsPlanned(db: Db, scope: AlertScope, t: HealthTransition, now: int)
    requires Settled(db, now) && scope != Sampling
    requires LawfulTransition(t)
    ensures PlansOrExhausted(db, PlanScope(db, scope, t, now), iset{scope}, now)
  {
    hide Settled, PlanCondition, PlanRecoveries, ActiveHealthAlerts;
    match t.event {
      case NoEvent =>
      case ConditionConfirmed =>
        ConditionIsPlanned(db, scope, if t.state.current == Some(Degraded) then DegradedAlert else UnavailableAlert, now);
      case RecoveryConfirmed =>
        ScopeRecoveryIsPlanned(db, scope, now);
    }
  }

  predicate LawfulTransition(t: HealthTransition) {
    t.event == ConditionConfirmed ==> t.state.current.Some? && t.state.current.value != Healthy
  }

  /** Plans for disjoint sets of scopes can be carried out together. */
  lemma ReadyTogether(
    db: Db, left: seq<AlertPlan>, right: seq<AlertPlan>, leftScopes: iset<AlertScope>, rightScopes: iset<AlertScope>, now: int)
    requires PlansOrExhausted(db, Success(left), leftScopes, now)
    requires PlansOrExhausted(db, Success(right), rightScopes, now)
    requires leftScopes !! rightScopes
    ensures PlansOrExhausted(db, Success(left + right), leftScopes + rightScopes, now)
  {
    var plans := left + right;
    forall i, j | 0 <= i < j < |plans|
      ensures Target(plans[i]) != Target(plans[j])
    {
      assert i < |left| <= j ==> Target(plans[i]).0 in leftScopes && Target(plans[j]).0 in rightScopes;
    }
  }

  function Together(before: Result<seq<AlertPlan>, Rejection>, after: Result<seq<AlertPlan>, Rejection>)
    : Result<seq<AlertPlan>, Rejection>
  {
    var left :- before;
    var right :- after;
    Success(left + right)
  }

  lemma PlannedTogether(
    db: Db, left: Result<seq<AlertPlan>, Rejection>, right: Result<seq<AlertPlan>, Rejection>,
    leftScopes: iset<AlertScope>, rightScopes: iset<AlertScope>, now: int)
    requires PlansOrExhausted(db, left, leftScopes, now) && PlansOrExhausted(db, right, rightScopes, now)
    requires leftScopes !! rightScopes
    ensures PlansOrExhausted(db, Together(left, right), leftScopes + rightScopes, now)
  {
    hide AllReady, NextGeneration;
    if left.Success? && right.Success? {
      ReadyTogether(db, left.value, right.value, leftScopes, rightScopes, now);
    }
  }

  ghost function FirstScopes(n: nat): iset<AlertScope> {
    iset scope: AlertScope | Visited(scope, n)
  }

  lemma OneMoreScope(n: nat)
    requires n < HEALTH_SCOPE_COUNT
    ensures FirstScopes(n) !! iset{HealthScopeAt(n)}
    ensures FirstScopes(n + 1) == FirstScopes(n) + iset{HealthScopeAt(n)}
    ensures Visited(HealthScopeAt(n), n + 1)
    ensures forall s: AlertScope :: Visited(s, n) ==> Visited(s, n + 1)
  {
  }

  lemma NothingPlanned(db: Db, now: int)
    ensures PlansOrExhausted(db, Success([]), FirstScopes(0), now)
  {
  }

  lemma {:induction false} ScopesArePlanned(db: Db, health: HealthTransitions, n: nat, now: int)
    requires Settled(db, now) && n <= HEALTH_SCOPE_COUNT
    requires forall scope: AlertScope :: Visited(scope, n) ==> scope in health && LawfulTransition(health[scope])
    ensures PlansOrExhausted(db, PlanScopes(db, health, n, now), FirstScopes(n), now)
  {
    hide AlertsOk, EligibleKeys, PlanScope, PlansOrExhausted, LawfulTransition, Visited, FirstScopes;
    if n == 0 {
      NothingPlanned(db, now);
    } else {
      var scope := HealthScopeAt(n - 1);
      OneMoreScope(n - 1);
      ScopesArePlanned(db, health, n - 1, now);
      ScopeIsPlanned(db, scope, health[scope], now);
      PlannedTogether(
        db, PlanScopes(db, health, n - 1, now), PlanScope(db, scope, health[scope], now),
        FirstScopes(n - 1), iset{scope}, now);
    }
  }

  lemma GapIsPlanned(db: Db, gap: GapTransition, p: HealthProjection)
    requires Settled(db, p.recordedAt)
    ensures PlansOrExhausted(db, PlanGap(db, gap, p), iset{Sampling}, p.recordedAt)
  {
    if GapCondition(gap, p) {
      OpenIsPlanned(db, Sampling, SamplingGapAlert, p.recordedAt);
    } else if gap.event == GapRecovered {
      ActiveIsUnique(db.alerts, Sampling, SamplingGapAlert);
      var active := ActiveIds(db.alerts, Sampling, SamplingGapAlert);
      if active != {} {
        var stored := ReadAlert(db, Latest(active)).value;
        RecoveriesArePlanned(db, [stored], p.recordedAt);
      }
    }
  }

  /** Planning never finds a malformed table; at worst an alert has used up its generations. */
  lemma AlertsArePlanned(db: Db, health: HealthTransitions, gap: GapTransition, p: HealthProjection)
    requires Settled(db, p.recordedAt)
    requires forall scope: AlertScope :: Visited(scope, HEALTH_SCOPE_COUNT) ==>
               scope in health && LawfulTransition(health[scope])
    ensures PlansOrExhausted(db, PlanAlerts(db, health, gap, p), FirstScopes(HEALTH_SCOPE_COUNT) + iset{Sampling}, p.recordedAt)
  {
    hide AlertsOk, EligibleKeys, PlanScopes, PlanGap, PlansOrExhausted, LawfulTransition;
    var n := HEALTH_SCOPE_COUNT;
    ScopesArePlanned(db, health, n, p.recordedAt);
    GapIsPlanned(db, gap, p);
    PlannedTogether(
      db, PlanScopes(db, health, n, p.recordedAt), PlanGap(db, gap, p), FirstScopes(n), iset{Sampling}, p.recordedAt);
  }
}
