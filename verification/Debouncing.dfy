/**
 * Debouncing over whole runs of submissions and cleanups: what the stored evaluator rows count, and which
 * observations must have come before an alert opens or recovers.
 */
module Debouncing {
  import opened Wrappers
  import opened HealthModels
  import opened Projection
  import opened Evaluation
  import opened SamplingGap
  import opened Lifecycle
  import opened RowOrder
  import opened HistoryTables
  import opened Ingestion
  import opened AlertTable
  import opened AlertMachine
  import opened AlertPlans
  import opened AlertPlanning
  import opened IngestionSafety
  import opened IngestionRuns
  import opened ExactlyOnce
  import opened Retention
  import opened RetentionRuns
  import opened MixedRuns
  import opened PlanEffects

  // ---------- Which plans a verdict of the debouncer leads to ----------

  /** Why there is a plan for an alert of this health scope. */
  predicate DueTo(t: HealthTransition, scope: AlertScope, plan: AlertPlan) {
    && Target(plan).0 == scope
    && if plan.transition.event == Some(RecoveredEvent) then t.event == RecoveryConfirmed
       else t.event == ConditionConfirmed && t.state.current == Some(SeverityOf(Target(plan).1))
  }

  /** Nothing of the pair is live, and the plan adds an alert. */
  ghost predicate RaisesNew(alerts: Alerts, plan: AlertPlan, scope: AlertScope, kind: AlertKind, now: int) {
    && (forall id :: id in alerts && OfPair(alerts[id], scope, kind) ==> !Live(alerts[id]))
    && plan.transition.outcome == Applied && Created(plan.transition).Some?
    && Track(Created(plan.transition).value) == Raised(1, CooldownFrom(now))
  }

  /** The alert is the live one of the pair, and the plan notes another occurrence of it. */
  ghost predicate RaisesAgain(alerts: Alerts, plan: AlertPlan, scope: AlertScope, kind: AlertKind, now: int, id: int) {
    && id in alerts && OfPair(alerts[id], scope, kind) && Live(alerts[id])
    && (if Moving(plan) then plan.existing.value == id else plan.transition.outcome == Idempotent)
    && Track(if Moving(plan) then plan.transition.state.value else alerts[id].state) == Again(Track(alerts[id].state), now)
  }

  /** The plan adds an alert of the pair, or notes that the one it finds goes on. */
  ghost predicate Raises(alerts: Alerts, plan: AlertPlan, scope: AlertScope, kind: AlertKind, now: int) {
    && Target(plan) == (scope, kind)
    && plan.transition.event != Some(RecoveredEvent) && plan.transition.event != Some(ArchivedEvent)
    && (RaisesNew(alerts, plan, scope, kind, now) || exists id :: RaisesAgain(alerts, plan, scope, kind, now, id))
  }

  predicate Heals(alerts: Alerts, plan: AlertPlan, id: int, now: int) {
    && Moving(plan) && plan.existing.value == id && id in alerts
    && plan.transition.state.value.lifecycle == Recovered
    && Track(alerts[id].state).Raised?
    && Track(plan.transition.state.value) == Next(Track(alerts[id].state), Healed, now)
  }

  ghost predicate Answers(alerts: Alerts, scope: AlertScope, t: HealthTransition, plans: seq<AlertPlan>, now: int) {
    match t.event
    case NoEvent => true
    case ConditionConfirmed =>
      t.state.current.Some? && exists i :: 0 <= i < |plans| && Raises(alerts, plans[i], scope, KindOf(t.state.current.value), now)
    case RecoveryConfirmed =>
      forall id :: id in alerts && IsActiveHealth(alerts[id], scope) ==> exists i :: 0 <= i < |plans| && Heals(alerts, plans[i], id, now)
  }

  function KindOf(status: Status): AlertKind {
    if status == Degraded then DegradedAlert else UnavailableAlert
  }

  lemma OpenRaises(db: Db, scope: AlertScope, kind: AlertKind, now: int)
    requires Settled(db, now) && PairFits(scope, kind)
    requires PlanOpen(db, scope, kind, now).Success?
    ensures Raises(db.alerts, PlanOpen(db, scope, kind, now).value, scope, kind, now)
  {
    hide CurrentOrLatest;
    OpenIsPlanned(db, scope, kind, now);
    CurrentIsRead(db, scope, kind);
    match CurrentOrLatest(db, scope, kind).value {
      case None => assert RaisesNew(db.alerts, PlanOpen(db, scope, kind, now).value, scope, kind, now);
      case Some(stored) => OpenRaisesAgain(db, stored, now);
    }
  }

  lemma OpenRaisesAgain(db: Db, stored: StoredAlert, now: int)
    requires Settled(db, now) && IsCurrentOfPair(db, stored.state.scope, stored.state.kind, Some(stored)) && stored.state.Valid()
    ensures var t := OpenOrUpdate(Some(stored.state), AlertRequest(OpenAlert, stored.state.scope, stored.state.kind, now));
            var plan := AlertPlan(Some(stored.id), t);
            t.outcome == RefusedOutcome || RaisesNew(db.alerts, plan, stored.state.scope, stored.state.kind, now)
            || RaisesAgain(db.alerts, plan, stored.state.scope, stored.state.kind, now, stored.id)
  {
    if stored.state.lifecycle == Recovered {
      NotEligible(db, now, stored.id);
    }
  }

  lemma ConditionFits(scope: AlertScope, kind: AlertKind)
    requires scope != Sampling && kind != SamplingGapAlert
    ensures PairFits(scope, kind)
  {
  }

  lemma ConditionRaises(db: Db, scope: AlertScope, kind: AlertKind, now: int)
    requires Settled(db, now) && scope != Sampling && kind != SamplingGapAlert
    requires PlanCondition(db, scope, kind, now).Success?
    ensures Raises(db.alerts, PlanCondition(db, scope, kind, now).value, scope, kind, now)
  {
    hide AlertsOk, EligibleKeys, PlanOpen, PlanReady, NextGeneration, CurrentOrLatest, ActiveHealthAlerts, FirstDegraded, PairFits;
    ConditionIsPlanned(db, scope, kind, now);
    ConditionFits(scope, kind);
    if PlanCondition(db, scope, kind, now) == PlanOpen(db, scope, kind, now) {
      OpenRaises(db, scope, kind, now);
    } else {
      assert AlertsOk(db.alerts);
      CurrentIsRead(db, scope, UnavailableAlert);
      assert RaisesNew(db.alerts, PlanCondition(db, scope, kind, now).value, scope, kind, now);
    }
  }

  lemma {:induction false} RecoveriesHeal(alerts: Alerts, stored: seq<StoredAlert>, now: int)
    requires IsTimestamp(now) && PlanRecoveries(stored, now).Success?
    requires forall i :: 0 <= i < |stored| ==> stored[i].id in alerts && stored[i].state == alerts[stored[i].id].state
    ensures var plans := PlanRecoveries(stored, now).value;
            && |plans| == |stored|
            && forall i :: 0 <= i < |stored| ==>
                 Heals(alerts, plans[i], stored[i].id, now) && plans[i].transition.event == Some(RecoveredEvent)
  {
    if stored != [] {
      RecoveriesHeal(alerts, stored[1..], now);
    }
  }

  lemma ScopeIsAnswered(db: Db, scope: AlertScope, t: HealthTransition, now: int)
    requires Settled(db, now) && scope != Sampling && LawfulTransition(t)
    requires PlanScope(db, scope, t, now).Success?
    ensures var plans := PlanScope(db, scope, t, now).value;
            && (forall i :: 0 <= i < |plans| ==> DueTo(t, scope, plans[i]))
            && Answers(db.alerts, scope, t, plans, now)
  {
    match t.event {
      case NoEvent =>
      case ConditionConfirmed =>
        ConditionRaises(db, scope, KindOf(t.state.current.value), now);
        var plans := PlanScope(db, scope, t, now).value;
        assert Raises(db.alerts, plans[0], scope, KindOf(t.state.current.value), now);
      case RecoveryConfirmed =>
        RecoveryAnswers(db, scope, t, now);
    }
  }

  lemma RecoveryAnswers(db: Db, scope: AlertScope, t: HealthTransition, now: int)
    requires Settled(db, now) && scope != Sampling && t.event == RecoveryConfirmed
    requires PlanScope(db, scope, t, now).Success?
    ensures var plans := PlanScope(db, scope, t, now).value;
            && (forall i :: 0 <= i < |plans| ==> DueTo(t, scope, plans[i]))
            && Answers(db.alerts, scope, t, plans, now)
  {
    ActiveHealthIsRead(db, scope);
    var stored := ActiveHealthAlerts(db, scope).value;
    RecoveriesHeal(db.alerts, stored, now);
    RecoveriesArePlanned(db, stored, now);
  }

  lemma AnsweredBySupersequence(
    alerts: Alerts, scope: AlertScope, t: HealthTransition, left: seq<AlertPlan>, right: seq<AlertPlan>, now: int)
    requires Answers(alerts, scope, t, left, now) || Answers(alerts, scope, t, right, now)
    ensures Answers(alerts, scope, t, left + right, now)
  {
    var plans := left + right;
    assert forall i :: 0 <= i < |left| ==> plans[i] == left[i];
    assert forall i :: 0 <= i < |right| ==> plans[|left| + i] == right[i];
  }

  /** Every plan is due to the verdict on its own scope, and every verdict on the first `n` scopes is answered. */
  ghost predicate VerdictsAnswered(alerts: Alerts, health: HealthTransitions, n: nat, plans: seq<AlertPlan>, now: int) {
    && (forall i :: 0 <= i < |plans| ==>
          && Visited(Target(plans[i]).0, n) && Target(plans[i]).0 in health
          && DueTo(health[Target(plans[i]).0], Target(plans[i]).0, plans[i]))
    && (forall scope :: Visited(scope, n) && scope in health ==> Answers(alerts, scope, health[scope], plans, now))
  }

  lemma OneMoreAnswered(
    alerts: Alerts, health: HealthTransitions, n: nat, before: seq<AlertPlan>, plans: seq<AlertPlan>, now: int)
    requires n < HEALTH_SCOPE_COUNT && VerdictsAnswered(alerts, health, n, before, now)
    requires HealthScopeAt(n) in health
    requires forall i :: 0 <= i < |plans| ==> DueTo(health[HealthScopeAt(n)], HealthScopeAt(n), plans[i])
    requires Answers(alerts, HealthScopeAt(n), health[HealthScopeAt(n)], plans, now)
    ensures VerdictsAnswered(alerts, health, n + 1, before + plans, now)
  {
    forall scope | Visited(scope, n + 1) && scope in health
      ensures Answers(alerts, scope, health[scope], before + plans, now)
    {
      assert Visited(scope, n) || scope == HealthScopeAt(n);
      AnsweredBySupersequence(alerts, scope, health[scope], before, plans, now);
    }
    hide Answers, DueTo;
  }

  lemma NothingToAnswer(alerts: Alerts, health: HealthTransitions, now: int)
    ensures VerdictsAnswered(alerts, health, 0, [], now)
  {
  }

  lemma {:induction false} ScopesAreAnswered(db: Db, health: HealthTransitions, n: nat, now: int)
    requires Settled(db, now) && n <= HEALTH_SCOPE_COUNT
    requires forall scope: AlertScope :: Visited(scope, n) ==> scope in health && LawfulTransition(health[scope])
    requires PlanScopes(db, health, n, now).Success?
    ensures VerdictsAnswered(db.alerts, health, n, PlanScopes(db, health, n, now).value, now)
  {
    hide Answers, DueTo, PlanScope, Settled, VerdictsAnswered, Visited, LawfulTransition;
    SettledParts(db, now);
    if n == 0 {
      NothingToAnswer(db.alerts, health, now);
    } else {
      var scope := HealthScopeAt(n - 1);
      OneMoreScope(n - 1);
      ScopesAreAnswered(db, health, n - 1, now);
      ScopeIsAnswered(db, scope, health[scope], now);
      OneMoreAnswered(
        db.alerts, health, n - 1,
        PlanScopes(db, health, n - 1, now).value, PlanScope(db, scope, health[scope], now).value, now);
    }
  }

  /** An observation confirms a gap: it reports misses, and the gap is open with it. */
  predicate GapConfirmed(gap: GapTransition, p: HealthProjection) {
    gap.state.phase == Active && Misses(p)
  }

  /** The plans for the gap alert, and why they are made. */
  ghost predicate GapAnswered(alerts: Alerts, gap: GapTransition, p: HealthProjection, plans: seq<AlertPlan>) {
    && (forall i :: 0 <= i < |plans| ==>
          && Target(plans[i]) == (Sampling, SamplingGapAlert)
          && if plans[i].transition.event == Some(RecoveredEvent) then gap.event == GapRecovered else GapConfirmed(gap, p))
    && (GapConfirmed(gap, p) ==>
          exists i :: 0 <= i < |plans| && Raises(alerts, plans[i], Sampling, SamplingGapAlert, p.recordedAt))
    && (gap.event == GapRecovered ==>
          forall id :: id in ActiveIds(alerts, Sampling, SamplingGapAlert) ==>
            exists i :: 0 <= i < |plans| && Heals(alerts, plans[i], id, p.recordedAt))
  }

  /** The transition is one that the phases make on this observation. */
  ghost predicate GapStep(gap: GapTransition, p: HealthProjection) {
    && (GapCondition(gap, p) <==> GapConfirmed(gap, p))
    && (gap.event == GapRecovered ==> !GapConfirmed(gap, p))
  }

  lemma GapEvaluated(db: Db, p: HealthProjection, gap: GapTransition)
    requires HasEveryScope(db.evaluation) && EvaluateGap(db, p) == Success(gap)
    requires db.checkpoint.last.Some? ==> db.checkpoint.last.value.sequence < p.sequence
    ensures GapStep(gap, p)
  {
  }

  lemma GapIsAnswered(db: Db, gap: GapTransition, p: HealthProjection)
    requires Settled(db, p.recordedAt)
    requires HasEveryScope(db.evaluation) && EvaluateGap(db, p) == Success(gap)
    requires db.checkpoint.last.Some? ==> db.checkpoint.last.value.sequence < p.sequence
    requires PlanGap(db, gap, p).Success?
    ensures GapAnswered(db.alerts, gap, p, PlanGap(db, gap, p).value)
  {
    GapEvaluated(db, p, gap);
    if GapCondition(gap, p) {
      OpenIsPlanned(db, Sampling, SamplingGapAlert, p.recordedAt);
      OpenRaises(db, Sampling, SamplingGapAlert, p.recordedAt);
      assert Raises(db.alerts, PlanGap(db, gap, p).value[0], Sampling, SamplingGapAlert, p.recordedAt);
    } else if gap.event == GapRecovered {
      ActiveIsUnique(db.alerts, Sampling, SamplingGapAlert);
      var active := ActiveIds(db.alerts, Sampling, SamplingGapAlert);
      if active != {} {
        var stored := ReadAlert(db, Latest(active)).value;
        RecoveriesArePlanned(db, [stored], p.recordedAt);
        RecoveriesHeal(db.alerts, [stored], p.recordedAt);
        OnlyMember(active, Latest(active));
        assert Heals(db.alerts, PlanGap(db, gap, p).value[0], Latest(active), p.recordedAt);
      }
    }
  }

  lemma OnlyMember(ids: set<int>, id: int)
    requires |ids| <= 1 && id in ids
    ensures ids == {id}
  {
    assert |ids - {id}| == 0;
  }

  // ---------- What a run submits to the debouncer of one scope ----------

  /** Some health alert of this scope is active. */
  predicate AlertActive(alerts: Alerts, scope: AlertScope) {
    exists id | id in alerts :: IsActiveHealth(alerts[id], scope)
  }

  lemma SubmissionAppends(hash: Hash, operations: seq<Operation>, p: HealthProjection)
    ensures OperateAll(hash, operations + [SubmitOne(p)]) == Submit(hash, OperateAll(hash, operations), p)
  {
    hide Submit;
    assert (operations + [SubmitOne(p)])[..|operations|] == operations;
  }

  /** One input for each accepted observation of the run; cleanups submit nothing. */
  function ScopeInputs(hash: Hash, operations: seq<Operation>, scope: AlertScope): seq<HealthInput> {
    if operations == [] then []
    else
      var n := |operations| - 1;
      var inputs, db := ScopeInputs(hash, operations[..n], scope), OperateAll(hash, operations[..n]).db;
      match operations[n]
      case SubmitOne(p) =>
        if AcceptsNew(hash, db, p) then inputs + [ScopeInput(p, scope, AlertActive(db.alerts, scope))] else inputs
      case CleanUp(_) => inputs
  }

  lemma InputsAppend(hash: Hash, operations: seq<Operation>, p: HealthProjection, scope: AlertScope)
    requires AcceptsNew(hash, OperateAll(hash, operations).db, p)
    ensures WellFormed(p)
    ensures ScopeInputs(hash, operations + [SubmitOne(p)], scope) ==
              ScopeInputs(hash, operations, scope) + [ScopeInput(p, scope, AlertActive(OperateAll(hash, operations).db.alerts, scope))]
  {
    hide OperateAll, Transact;
    assert (operations + [SubmitOne(p)])[..|operations|] == operations;
  }

  /** The verdict is the one the debouncer gives on the input of this scope. */
  ghost predicate IsVerdict(db: Db, p: HealthProjection, scope: AlertScope, t: HealthTransition)
    requires WellFormed(p) && HasEveryScope(db.evaluation)
  {
    var input, state := ScopeInput(p, scope, AlertActive(db.alerts, scope)), db.evaluation[scope].health;
    state.Valid() && input.Valid() && t == EvaluateHealthState(state, input)
  }

  lemma ScopeEvaluated(db: Db, p: HealthProjection, scope: AlertScope)
    requires WellFormed(p) && HasEveryScope(db.evaluation) && AlertsOk(db.alerts)
    requires EvaluateScope(db, p, scope).Success?
    ensures IsVerdict(db, p, scope, EvaluateScope(db, p, scope).value)
  {
    ActiveIsListed(db, scope);
    hide AlertsOk, EvaluateHealthState, ActiveHealthAlerts, AlertActive, ScopeStatus, ScopeDisabled, WellFormed;
  }

  lemma {:induction false} ScopesEvaluated(db: Db, p: HealthProjection, n: nat, scope: AlertScope)
    requires WellFormed(p) && n <= HEALTH_SCOPE_COUNT
    requires HasEveryScope(db.evaluation) && AlertsOk(db.alerts)
    requires EvaluateScopes(db, p, n).Success? && Visited(scope, n)
    ensures scope in EvaluateScopes(db, p, n).value
    ensures IsVerdict(db, p, scope, EvaluateScopes(db, p, n).value[scope])
  {
    hide IsVerdict, EvaluateScope, AlertsOk, WellFormed;
    if scope == HealthScopeAt(n - 1) {
      ScopeEvaluated(db, p, scope);
    } else {
      ScopesEvaluated(db, p, n - 1, scope);
    }
  }

  lemma ActiveIsListed(db: Db, scope: AlertScope)
    requires AlertsOk(db.alerts)
    ensures ActiveHealthAlerts(db, scope).Success?
    ensures AlertActive(db.alerts, scope) <==> ActiveHealthAlerts(db, scope).value != []
  {
    ActiveHealthIsRead(db, scope);
    var stored := ActiveHealthAlerts(db, scope).value;
    if stored != [] {
      assert IsActiveHealth(db.alerts[stored[0].id], scope);
    }
  }

  /** Archival leaves active alerts alone. */
  lemma ArchivalKeepsActive(before: Alerts, after: Alerts, now: int, scope: AlertScope)
    requires OnlyArchives(before, after, now)
    ensures forall id :: id in before && IsActiveHealth(before[id], scope) ==> after[id] == before[id]
    ensures forall id :: id in after && IsActive(after[id].state.lifecycle) ==> before[id] == after[id]
    ensures AlertActive(before, scope) <==> AlertActive(after, scope)
  {
    forall id | id in before
      ensures IsActiveHealth(before[id], scope) <==> IsActiveHealth(after[id], scope)
    {
    }
    if AlertActive(before, scope) {
      var id :| id in before && IsActiveHealth(before[id], scope);
      assert id in after && IsActiveHealth(after[id], scope);
    }
    if AlertActive(after, scope) {
      var id :| id in after && IsActiveHealth(after[id], scope);
      assert id in before && IsActiveHealth(before[id], scope);
    }
  }

  // ---------- One accepted step ----------

  /** What one accepted step does to the alerts, and on which verdicts. */
  ghost predicate StepAlerts(before: Alerts, archived: Alerts, after: Alerts, d: Decisions, now: int) {
    && OnlyArchives(before, archived, now)
    && (forall id :: id in archived ==> id in after)
    && (forall id :: id in after ==> Explained(archived, after, d.plans, id))
    && (forall i :: 0 <= i < |d.plans| ==> Done(after, d.plans[i]) && PlanReady(archived, d.plans[i], now))
  }

  lemma CheckpointKeepsAlerts(db: Db, p: HealthProjection)
    ensures WriteCheckpoint(db, p).Success? ==> WriteCheckpoint(db, p).value.alerts == db.alerts
  {
    hide TrimLedger, InsertInKeyOrder;
  }

  lemma StepActsOnVerdicts(hash: Hash, db: Db, p: HealthProjection, s: Step)
    requires Sound(hash, db) && StepOf(hash, db, p, s)
    ensures StepAlerts(db.alerts, s.archived.alerts, s.final.alerts, s.decisions, p.recordedAt)
  {
    hide ValidProjection, WellFormed, IsNew, Sound, ArchiveEligible, Decide, PersistPlans, WriteCheckpoint, Recorded, SampleReference,
      PlanReady, Done, Explained, AlertsOk, OnlyArchives, Settled, SampleAvailable, NextGeneration, AnyNeedsSample,
      SameApartFromAlerts;
    ValidParts(hash, p);
    ArchivedIsSound(hash, db, p.recordedAt);
    SoundParts(hash, s.archived);
    RecordedSampleAvailable(s.archived, p, s.decisions);
    PlansWork(s.recorded, s.decisions.plans, p.recordedAt, s.sample);
    CheckpointKeepsAlerts(s.alerted, p);
  }

  /** The parts that a decision is put together from. */
  lemma DecisionParts(hash: Hash, db: Db, p: HealthProjection, d: Decisions)
    requires WellFormed(p) && HasEveryScope(db.evaluation) && Decide(hash, db, p) == Success(d)
    ensures EvaluateScopes(db, p, HEALTH_SCOPE_COUNT) == Success(d.health)
    ensures EvaluateGap(db, p) == Success(d.gap)
    ensures forall scope: AlertScope :: Visited(scope, HEALTH_SCOPE_COUNT) ==> scope in d.health
    ensures IsTimestamp(p.recordedAt)
    ensures PlanScopes(db, d.health, HEALTH_SCOPE_COUNT, p.recordedAt).Success?
    ensures PlanGap(db, d.gap, p).Success?
    ensures d.plans == PlanScopes(db, d.health, HEALTH_SCOPE_COUNT, p.recordedAt).value + PlanGap(db, d.gap, p).value
  {
    hide EvaluateScopes, EvaluateGap, DecideStorage, PlanScopes, PlanGap, AnyNeedsSample, ForceTransition;
  }

  /** The plans of a step fall into those for the verdicts on health scopes and those for the gap. */
  lemma PlansAnswerVerdicts(hash: Hash, db: Db, p: HealthProjection, d: Decisions)
    returns (healthPlans: seq<AlertPlan>, gapPlans: seq<AlertPlan>)
    requires Sound(hash, db) && WellFormed(p) && Settled(db, p.recordedAt) && IsNew(db, p)
    requires Decide(hash, db, p) == Success(d)
    ensures d.plans == healthPlans + gapPlans
    ensures VerdictsAnswered(db.alerts, d.health, HEALTH_SCOPE_COUNT, healthPlans, p.recordedAt)
    ensures GapAnswered(db.alerts, d.gap, p, gapPlans)
  {
    DecisionParts(hash, db, p, d);
    ScopesEvaluate(db, p, HEALTH_SCOPE_COUNT);
    hide Decide, VerdictsAnswered, GapAnswered, EvaluateScopes, EvaluateGap, PlanScopes, PlanGap, Settled, WellFormed;
    healthPlans := PlanScopes(db, d.health, HEALTH_SCOPE_COUNT, p.recordedAt).value;
    gapPlans := PlanGap(db, d.gap, p).value;
    ScopesAreAnswered(db, d.health, HEALTH_SCOPE_COUNT, p.recordedAt);
    GapIsAnswered(db, d.gap, p);
  }

  // ---------- Runs ----------

  /** The stored evaluator row is the debouncer's state after all inputs of its scope. */
  ghost predicate RowTracksInputs(hash: Hash, operations: seq<Operation>, scope: AlertScope) {
    var inputs, db := ScopeInputs(hash, operations, scope), OperateAll(hash, operations).db;
    && ValidInputs(inputs)
    && HasEveryScope(db.evaluation)
    && db.evaluation[scope].health == StateAfter(inputs)
  }

  lemma StateAppends(inputs: seq<HealthInput>, input: HealthInput)
    requires ValidInputs(inputs) && input.Valid()
    ensures ValidInputs(inputs + [input])
    ensures var t := EvaluateHealthState(StateAfter(inputs), input);
            StateAfter(inputs + [input]) == t.state && EventAfter(inputs + [input]) == t.event
  {
    assert (inputs + [input])[..|inputs|] == inputs;
  }

  /** The verdict of a step on a scope is that of the debouncer on the inputs of the whole run. */
  lemma StepVerdict(hash: Hash, operations: seq<Operation>, p: HealthProjection, s: Step, scope: AlertScope)
    requires scope != Sampling && RowTracksInputs(hash, operations, scope)
    requires var db := OperateAll(hash, operations).db;
             && Sound(hash, db) && AcceptsNew(hash, db, p) && StepOf(hash, db, p, s)
             && Ingest(hash, db, p).db == s.final
    ensures RowTracksInputs(hash, operations + [SubmitOne(p)], scope)
    ensures var inputs := ScopeInputs(hash, operations + [SubmitOne(p)], scope);
            && inputs != [] && scope in s.decisions.health
            && s.decisions.health[scope] == HealthTransition(StateAfter(inputs), EventAfter(inputs))
  {
    hide Ingest, Decide, Sound, ScopeInputs, OperateAll, StateAfter, EventAfter, EvaluateHealthState, OnlyArchives, AlertActive,
      AcceptsNew, WellFormed, ValidProjection, ArchiveEligible, PersistPlans, WriteCheckpoint, Recorded, SampleReference, Settled,
      Plannable, IsNew, HasEveryScope, ValidInputs, ScopeInput, Visited, SameApartFromAlerts, HealthInput.Valid;
    var db := OperateAll(hash, operations).db;
    SubmissionAppends(hash, operations, p);
    InputsAppend(hash, operations, p, scope);
    ValidParts(hash, p);
    ArchivedIsSound(hash, db, p.recordedAt);
    SoundParts(hash, s.archived);
    ArchivalKeepsActive(db.alerts, s.archived.alerts, p.recordedAt, scope);
    DecisionParts(hash, s.archived, p, s.decisions);
    EveryScopeIsVisited(scope);
    ScopesEvaluated(s.archived, p, HEALTH_SCOPE_COUNT, scope);
    StepWritesVerdict(hash, db, p, s, scope);
    StateAppends(ScopeInputs(hash, operations, scope), ScopeInput(p, scope, AlertActive(db.alerts, scope)));
  }

  lemma StepWritesVerdict(hash: Hash, db: Db, p: HealthProjection, s: Step, scope: AlertScope)
    requires StepOf(hash, db, p, s)
    ensures HasEveryScope(db.evaluation) && s.archived.evaluation == db.evaluation && HasEveryScope(s.final.evaluation)
    ensures scope != Sampling && scope in s.decisions.health ==>
              s.final.evaluation[scope].health == s.decisions.health[scope].state
    ensures s.final.evaluation[Sampling].gapPhase == s.decisions.gap.state.phase
  {
    hide ValidProjection, WellFormed, IsNew, Sound, ArchiveEligible, Decide, PersistPlans, WriteCheckpoint, Recorded, SampleReference,
      Settled, Plannable, HasEveryScope;
    ValidParts(hash, p);
    VerdictParts(hash, db, p, s);
    StagesKeepEvaluation(db, p, s);
    RecordedRows(s.archived, p, s.decisions, scope);
  }

  lemma VerdictParts(hash: Hash, db: Db, p: HealthProjection, s: Step)
    requires StepOf(hash, db, p, s)
    ensures HasEveryScope(s.archived.evaluation)
  {
    hide ValidProjection, WellFormed, IsNew, ArchiveEligible, Decide, PersistPlans, WriteCheckpoint, Recorded, SampleReference,
      Settled, Plannable, LedgerOk, SamplesOk, AlertsOk, BaselineOk, Readable;
  }

  /** Only the recording stage touches the evaluation rows. */
  lemma StagesKeepEvaluation(db: Db, p: HealthProjection, s: Step)
    requires IsTimestamp(p.recordedAt) && ArchiveEligible(db, p.recordedAt) == Success(s.archived)
    requires PersistPlans(s.recorded, s.decisions.plans, p.recordedAt, s.sample) == Success(s.alerted)
    requires WriteCheckpoint(s.alerted, p) == Success(s.final)
    ensures s.archived.evaluation == db.evaluation && s.final.evaluation == s.recorded.evaluation
  {
    hide ArchiveEligible, PersistPlans, TrimLedger, InsertInKeyOrder;
  }

  lemma RecordedRows(db: Db, p: HealthProjection, d: Decisions, scope: AlertScope)
    requires HasEveryScope(db.evaluation)
    ensures HasEveryScope(Recorded(db, p, d).evaluation)
    ensures scope != Sampling && scope in d.health ==>
              Recorded(db, p, d).evaluation[scope].health == d.health[scope].state
    ensures Recorded(db, p, d).evaluation[Sampling].gapPhase == d.gap.state.phase
  {
    hide SampleOf;
  }

  lemma FreshRowTracks(hash: Hash, scope: AlertScope)
    ensures RowTracksInputs(hash, [], scope)
  {
    match scope {
      case Component(name) => assert ComponentAt(ComponentIndex(name)) == name;
      case _ =>
    }
  }

  lemma SteppedRowTracks(hash: Hash, operations: seq<Operation>, p: HealthProjection, scope: AlertScope)
    requires scope != Sampling && RowTracksInputs(hash, operations, scope) && Sound(hash, OperateAll(hash, operations).db)
    ensures RowTracksInputs(hash, operations + [SubmitOne(p)], scope)
  {
    hide RowTracksInputs, OperateAll, AcceptsNew, Sound, Ingest, StepOf;
    var db := OperateAll(hash, operations).db;
    if AcceptsNew(hash, db, p) {
      var s := AcceptedStep(hash, db, p);
      StepVerdict(hash, operations, p, s, scope);
    } else {
      RefusedRowTracks(hash, operations, p, scope);
    }
  }

  lemma RefusedRowTracks(hash: Hash, operations: seq<Operation>, p: HealthProjection, scope: AlertScope)
    requires scope != Sampling && RowTracksInputs(hash, operations, scope) && Sound(hash, OperateAll(hash, operations).db)
    requires !AcceptsNew(hash, OperateAll(hash, operations).db, p)
    ensures RowTracksInputs(hash, operations + [SubmitOne(p)], scope)
  {
    hide Sound, ValidProjection, Ingest, StateAfter, IsNew, DisabledButHealthy, WellFormed, ScopeInput, AlertActive;
    IngestionKeepsTrust(hash, OperateAll(hash, operations).db, p);
    assert (operations + [SubmitOne(p)])[..|operations|] == operations;
  }

  lemma {:induction false} RowsTrackInputs(hash: Hash, operations: seq<Operation>, scope: AlertScope)
    requires scope != Sampling
    ensures RowTracksInputs(hash, operations, scope)
  {
    hide *;
    if operations == [] {
      FreshRowTracks(hash, scope);
    } else {
      var n := |operations| - 1;
      RowsTrackInputs(hash, operations[..n], scope);
      OperationsKeepSound(hash, operations[..n]);
      assert operations == operations[..n] + [operations[n]];
      match operations[n] {
        case SubmitOne(p) => SteppedRowTracks(hash, operations[..n], p, scope);
        case CleanUp(cutoff) => CleanedRowTracks(hash, operations[..n], cutoff, scope);
      }
    }
  }

  /** A cleanup keeps the counters and phases of the evaluation rows, and the states of the alerts that stay. */
  ghost predicate KeepsStates(before: Db, after: Db) {
    && HasEveryScope(before.evaluation) && HasEveryScope(after.evaluation)
    && (forall scope :: scope in before.evaluation ==>
          && after.evaluation[scope].health == before.evaluation[scope].health
          && after.evaluation[scope].gapPhase == before.evaluation[scope].gapPhase)
    && (forall id :: id in after.alerts ==> id in before.alerts && after.alerts[id].state == before.alerts[id].state)
  }

  lemma CleanupKeepsStates(hash: Hash, run: Run, cutoff: int)
    requires Sound(hash, run.db) && TracksAccepted(hash, run.db, run.accepted)
    ensures KeepsStates(run.db, Operate(hash, run, CleanUp(cutoff)).db)
  {
    hide Sound, TracksAccepted, Plan, KeepsTheRest, KeepsStates, HasEveryScope;
    CleanupKeeps(hash, run.db, run.accepted, cutoff);
    SoundParts(hash, run.db);
    SoundParts(hash, Cleanup(run.db, cutoff).value);
    DeletionsKeepTheRest(run.db, Plan(run.db, cutoff), cutoff);
    RestKeepsStates(run.db, Cleanup(run.db, cutoff).value, Plan(run.db, cutoff));
  }

  lemma RestKeepsStates(before: Db, after: Db, actions: seq<Deletion>)
    requires KeepsTheRest(before, after, actions) && HasEveryScope(before.evaluation) && HasEveryScope(after.evaluation)
    ensures KeepsStates(before, after)
  {
    hide HasEveryScope;
  }

  lemma CleanedRowTracks(hash: Hash, operations: seq<Operation>, cutoff: int, scope: AlertScope)
    requires scope != Sampling && RowTracksInputs(hash, operations, scope)
    requires Sound(hash, OperateAll(hash, operations).db)
    requires TracksAccepted(hash, OperateAll(hash, operations).db, OperateAll(hash, operations).accepted)
    ensures RowTracksInputs(hash, operations + [CleanUp(cutoff)], scope)
  {
    hide Sound, TracksAccepted, Operate, StateAfter, ValidInputs;
    CleanupKeepsStates(hash, OperateAll(hash, operations), cutoff);
    assert (operations + [CleanUp(cutoff)])[..|operations|] == operations;
  }

  /**
   * After every run, the stored counter of a scope is the length of its current run of one
   * failing status, or the parity of its current run of healthy observations under an alert.
   */
  lemma StoredCounterIsRunLength(hash: Hash, operations: seq<Operation>, scope: AlertScope)
    requires scope != Sampling
    ensures var inputs, db := ScopeInputs(hash, operations, scope), OperateAll(hash, operations).db;
            && HasEveryScope(db.evaluation)
            && db.evaluation[scope].health.count ==
                 if |inputs| > 0 && inputs[|inputs| - 1].Failing() then Saturated(FailingRun(inputs))
                 else HealingRun(inputs) % 2
  {
    hide OperateAll, ScopeInputs, FailingRun, HealingRun, Saturated;
    RowsTrackInputs(hash, operations, scope);
    CounterIsRunLength(ScopeInputs(hash, operations, scope));
  }

  /** The newest `n` observations of the scope all failed with this status. */
  predicate LastFailed(inputs: seq<HealthInput>, n: nat, status: Status) {
    && n <= |inputs|
    && forall i :: |inputs| - n <= i < |inputs| ==> inputs[i].Failing() && inputs[i].status == status
  }

  /** The newest `n` observations of the scope were all healthy and found an alert active. */
  predicate LastHealed(inputs: seq<HealthInput>, n: nat) {
    && n <= |inputs|
    && forall i :: |inputs| - n <= i < |inputs| ==> inputs[i].status == Healthy && inputs[i].activeAlert
  }

  lemma ConfirmedMeansLasted(inputs: seq<HealthInput>)
    requires ValidInputs(inputs) && inputs != []
    ensures EventAfter(inputs) == ConditionConfirmed <==>
              var status := inputs[|inputs| - 1].status;
              status != Healthy && LastFailed(inputs, OpenThreshold(status), status)
    ensures StateAfter(inputs).current == Some(inputs[|inputs| - 1].status)
    ensures EventAfter(inputs) == RecoveryConfirmed ==> LastHealed(inputs, HEALTHY_RECOVERY_THRESHOLD)
  {
    CounterIsRunLength(inputs);
    ConfirmedExactlyAtThreshold(inputs);
    RecoveredExactlyAtEverySecond(inputs);
    FailingRunMeaning(inputs);
    HealingRunMeaning(inputs);
    hide StateAfter, EventAfter, FailingRun, HealingRun;
  }

  // ---------- When alerts open and recover ----------

  /** The verdict of the newest observation of a run on a scope. */
  lemma NewestVerdict(hash: Hash, operations: seq<Operation>, p: HealthProjection, s: Step, scope: AlertScope)
    requires scope != Sampling && AcceptsNew(hash, OperateAll(hash, operations).db, p)
    requires StepOf(hash, OperateAll(hash, operations).db, p, s) && Ingest(hash, OperateAll(hash, operations).db, p).db == s.final
    ensures var inputs := ScopeInputs(hash, operations + [SubmitOne(p)], scope);
            && ValidInputs(inputs) && inputs != [] && scope in s.decisions.health
            && s.decisions.health[scope] == HealthTransition(StateAfter(inputs), EventAfter(inputs))
  {
    OperationsKeepSound(hash, operations);
    RowsTrackInputs(hash, operations, scope);
    hide Ingest, StepOf, OperateAll, ScopeInputs, Sound, AcceptsNew, StateAfter, EventAfter;
    StepVerdict(hash, operations, p, s, scope);
  }

  /** The facts about one step that the theorems below are read off. */
  ghost predicate Accounted(
    archived: Alerts, after: Alerts, d: Decisions, healthPlans: seq<AlertPlan>, gapPlans: seq<AlertPlan>, p: HealthProjection)
  {
    && d.plans == healthPlans + gapPlans
    && (forall id :: id in archived ==> id in after)
    && (forall id :: id in after ==> Explained(archived, after, d.plans, id))
    && (forall i :: 0 <= i < |d.plans| ==> Done(after, d.plans[i]) && PlanReady(archived, d.plans[i], p.recordedAt))
    && AllReady(archived, d.plans, p.recordedAt)
    && VerdictsAnswered(archived, d.health, HEALTH_SCOPE_COUNT, healthPlans, p.recordedAt)
    && GapAnswered(archived, d.gap, p, gapPlans)
    && (forall id :: id in archived && archived[id].state.lifecycle == Recovered ==> p.recordedAt < archived[id].state.cooldownUntil)
  }

  /** Plans for health scopes come from verdicts on them, plans for the gap alert from the gap phases. */
  lemma PlanOrigin(
    archived: Alerts, after: Alerts, d: Decisions, healthPlans: seq<AlertPlan>, gapPlans: seq<AlertPlan>, p: HealthProjection, i: nat)
    requires Accounted(archived, after, d, healthPlans, gapPlans, p) && i < |d.plans|
    ensures var (scope, kind) := Target(d.plans[i]);
            var recovers := d.plans[i].transition.event == Some(RecoveredEvent);
            if scope == Sampling then
              kind == SamplingGapAlert && if recovers then d.gap.event == GapRecovered else GapConfirmed(d.gap, p)
            else
              scope in d.health && DueTo(d.health[scope], scope, d.plans[i])
  {
    hide Explained, Done, PlanReady, Answers;
    if i < |healthPlans| {
      assert d.plans[i] == healthPlans[i];
    } else {
      assert d.plans[i] == gapPlans[i - |healthPlans|];
    }
  }

  lemma CreationIsDue(
    archived: Alerts, after: Alerts, d: Decisions, healthPlans: seq<AlertPlan>, gapPlans: seq<AlertPlan>, p: HealthProjection, id: int)
    requires Accounted(archived, after, d, healthPlans, gapPlans, p)
    requires id in after && id !in archived
    ensures var (scope, kind) := PairOf(after[id]);
            if scope == Sampling then d.gap.state.phase == Active
            else scope in d.health && d.health[scope].event == ConditionConfirmed
                 && d.health[scope].state.current == Some(SeverityOf(kind))
  {
    assert Explained(archived, after, d.plans, id);
    var i :| 0 <= i < |d.plans| && Adds(d.plans[i], after[id].state);
    assert PlanReady(archived, d.plans[i], p.recordedAt);
    PlanOrigin(archived, after, d, healthPlans, gapPlans, p, i);
  }

  lemma ChangeIsDue(
    archived: Alerts, after: Alerts, d: Decisions, healthPlans: seq<AlertPlan>, gapPlans: seq<AlertPlan>, p: HealthProjection, id: int)
    requires Accounted(archived, after, d, healthPlans, gapPlans, p)
    requires id in archived
    ensures PairOf(after[id]) == PairOf(archived[id])
    ensures IsActive(after[id].state.lifecycle) ==> IsActive(archived[id].state.lifecycle)
    ensures IsActive(archived[id].state.lifecycle) && !IsActive(after[id].state.lifecycle) ==>
              var scope := archived[id].state.scope;
              if scope == Sampling then d.gap.event == GapRecovered
              else scope in d.health && d.health[scope].event == RecoveryConfirmed
  {
    assert Explained(archived, after, d.plans, id);
    if after[id] != archived[id] {
      var i :| 0 <= i < |d.plans| && Takes(d.plans[i], id, after[id].state);
      assert PlanReady(archived, d.plans[i], p.recordedAt);
      PlanOrigin(archived, after, d, healthPlans, gapPlans, p, i);
    }
  }

  lemma RecoveryIsComplete(
    archived: Alerts, after: Alerts, d: Decisions, healthPlans: seq<AlertPlan>, gapPlans: seq<AlertPlan>, p: HealthProjection,
    scope: AlertScope)
    requires Accounted(archived, after, d, healthPlans, gapPlans, p)
    requires scope in d.health && Visited(scope, HEALTH_SCOPE_COUNT) && d.health[scope].event == RecoveryConfirmed
    ensures forall id :: id in after ==> !IsActiveHealth(after[id], scope)
  {
    assert Answers(archived, scope, d.health[scope], healthPlans, p.recordedAt);
    forall id | id in after
      ensures !IsActiveHealth(after[id], scope)
    {
      if id in archived {
        ChangeIsDue(archived, after, d, healthPlans, gapPlans, p, id);
        if IsActiveHealth(archived[id], scope) {
          var i :| 0 <= i < |healthPlans| && Heals(archived, healthPlans[i], id, p.recordedAt);
          assert d.plans[i] == healthPlans[i] && Done(after, d.plans[i]);
        }
      } else {
        CreationIsDue(archived, after, d, healthPlans, gapPlans, p, id);
      }
    }
  }

  lemma ConditionIsRaised(
    archived: Alerts, after: Alerts, d: Decisions, healthPlans: seq<AlertPlan>, gapPlans: seq<AlertPlan>, p: HealthProjection,
    scope: AlertScope)
    requires Accounted(archived, after, d, healthPlans, gapPlans, p)
    requires scope in d.health && Visited(scope, HEALTH_SCOPE_COUNT) && d.health[scope].event == ConditionConfirmed
    ensures d.health[scope].state.current.Some?
    ensures exists id :: id in after && OfPair(after[id], scope, KindOf(d.health[scope].state.current.value)) && Live(after[id])
  {
    assert Answers(archived, scope, d.health[scope], healthPlans, p.recordedAt);
    var kind := KindOf(d.health[scope].state.current.value);
    var i :| 0 <= i < |healthPlans| && Raises(archived, healthPlans[i], scope, kind, p.recordedAt);
    assert d.plans[i] == healthPlans[i];
    var id := RaisedByPlan(archived, after, d, healthPlans, gapPlans, p, i, scope, kind);
  }

  /** An alert of the pair is live: either again, or new because none was. */
  ghost predicate Confirms(archived: Alerts, after: Alerts, scope: AlertScope, kind: AlertKind, now: int, id: int) {
    && id in after && OfPair(after[id], scope, kind) && Live(after[id])
    && if id in archived then
         && OfPair(archived[id], scope, kind) && Live(archived[id])
         && Track(after[id].state) == Again(Track(archived[id].state), now)
       else
         && (forall other :: other in archived && OfPair(archived[other], scope, kind) ==> !Live(archived[other]))
         && Track(after[id].state) == Raised(1, CooldownFrom(now))
  }

  lemma RaisedByPlan(
    archived: Alerts, after: Alerts, d: Decisions, healthPlans: seq<AlertPlan>, gapPlans: seq<AlertPlan>, p: HealthProjection,
    i: nat, scope: AlertScope, kind: AlertKind) returns (id: int)
    requires Accounted(archived, after, d, healthPlans, gapPlans, p)
    requires i < |d.plans| && Raises(archived, d.plans[i], scope, kind, p.recordedAt)
    ensures Confirms(archived, after, scope, kind, p.recordedAt, id)
  {
    hide VerdictsAnswered, GapAnswered;
    var plan := d.plans[i];
    assert Done(after, plan) && PlanReady(archived, plan, p.recordedAt);
    if RaisesNew(archived, plan, scope, kind, p.recordedAt) {
      id :| id in after && after[id].state == Created(plan.transition).value;
      assert Explained(archived, after, d.plans, id);
      if id in archived {
        NewIsNew(archived, after, d, healthPlans, gapPlans, p, id);
      }
    } else {
      id :| RaisesAgain(archived, plan, scope, kind, p.recordedAt, id);
      if !Moving(plan) {
        OnlyPlanOfPair(archived, after, d, healthPlans, gapPlans, p, i, id);
      }
    }
  }

  /** An alert that is live now was live before, or was not there. */
  lemma NewIsNew(
    archived: Alerts, after: Alerts, d: Decisions, healthPlans: seq<AlertPlan>, gapPlans: seq<AlertPlan>, p: HealthProjection, id: int)
    requires Accounted(archived, after, d, healthPlans, gapPlans, p)
    requires id in after && id in archived && Live(after[id])
    ensures Live(archived[id]) && PairOf(archived[id]) == PairOf(after[id])
  {
    hide VerdictsAnswered, GapAnswered;
    assert Explained(archived, after, d.plans, id);
    if after[id] != archived[id] {
      var j :| 0 <= j < |d.plans| && Takes(d.plans[j], id, after[id].state);
      assert PlanReady(archived, d.plans[j], p.recordedAt);
    }
  }

  /** A plan that takes an alert somewhere is a plan for its pair. */
  lemma TakersTarget(archived: Alerts, plans: seq<AlertPlan>, now: int, id: int, state: AlertState)
    requires id in archived && forall j :: 0 <= j < |plans| ==> PlanReady(archived, plans[j], now)
    ensures forall j :: 0 <= j < |plans| && Takes(plans[j], id, state) ==> Target(plans[j]) == PairOf(archived[id])
  {
    forall j | 0 <= j < |plans| && Takes(plans[j], id, state)
      ensures Target(plans[j]) == PairOf(archived[id])
    {
      assert PlanReady(archived, plans[j], now);
    }
  }

  /** The only plan for a pair changes nothing, so its alert stays as it is. */
  lemma OnlyPlanOfPair(
    archived: Alerts, after: Alerts, d: Decisions, healthPlans: seq<AlertPlan>, gapPlans: seq<AlertPlan>, p: HealthProjection,
    i: nat, id: int)
    requires Accounted(archived, after, d, healthPlans, gapPlans, p)
    requires i < |d.plans| && !Moving(d.plans[i]) && id in archived && Target(d.plans[i]) == PairOf(archived[id])
    ensures id in after && after[id] == archived[id]
  {
    assert id in after && Explained(archived, after, d.plans, id);
    TakersTarget(archived, d.plans, p.recordedAt, id, after[id].state);
    hide PlanReady, VerdictsAnswered, GapAnswered, Done, Target;
  }

  /** The plans of a step archive nothing. */
  lemma StaysLive(
    archived: Alerts, after: Alerts, d: Decisions, healthPlans: seq<AlertPlan>, gapPlans: seq<AlertPlan>, p: HealthProjection, id: int)
    requires Accounted(archived, after, d, healthPlans, gapPlans, p)
    requires id in archived && Live(archived[id])
    ensures PairOf(after[id]) == PairOf(archived[id]) && Live(after[id])
  {
    assert Explained(archived, after, d.plans, id);
    if after[id] != archived[id] {
      var i :| 0 <= i < |d.plans| && Takes(d.plans[i], id, after[id].state);
      assert PlanReady(archived, d.plans[i], p.recordedAt);
    }
  }

  lemma CooldownsRun(db: Db, now: int)
    requires Settled(db, now)
    ensures forall id :: id in db.alerts && db.alerts[id].state.lifecycle == Recovered ==>
              now < db.alerts[id].state.cooldownUntil
  {
    forall id | id in db.alerts && db.alerts[id].state.lifecycle == Recovered
      ensures now < db.alerts[id].state.cooldownUntil
    {
      NotEligible(db, now, id);
    }
  }

  /** Every accepted step of a run is accounted for in this way. */
  lemma AccountForStep(hash: Hash, operations: seq<Operation>, p: HealthProjection)
    returns (s: Step, healthPlans: seq<AlertPlan>, gapPlans: seq<AlertPlan>)
    requires AcceptsNew(hash, OperateAll(hash, operations).db, p)
    ensures Ingest(hash, OperateAll(hash, operations).db, p).db == s.final
    ensures StepOf(hash, OperateAll(hash, operations).db, p, s) && Sound(hash, OperateAll(hash, operations).db)
    ensures OnlyArchives(OperateAll(hash, operations).db.alerts, s.archived.alerts, p.recordedAt)
    ensures Accounted(s.archived.alerts, s.final.alerts, s.decisions, healthPlans, gapPlans, p)
  {
    hide *;
    OperationsKeepSound(hash, operations);
    s := AcceptedStep(hash, OperateAll(hash, operations).db, p);
    healthPlans, gapPlans := AccountFor(hash, OperateAll(hash, operations).db, p, s);
  }

  lemma PlansAreReady(db: Db, p: HealthProjection, archived: Db, d: Decisions)
    requires IsTimestamp(p.recordedAt) && ArchiveEligible(db, p.recordedAt) == Success(archived) && Plannable(archived, p, d)
    ensures AllReady(archived.alerts, d.plans, p.recordedAt) && (IsNew(db, p) ==> IsNew(archived, p))
  {
    hide ArchiveEligible, AllReady, AnyNeedsSample, NextGeneration;
  }

  lemma AccountFor(hash: Hash, db: Db, p: HealthProjection, s: Step)
    returns (healthPlans: seq<AlertPlan>, gapPlans: seq<AlertPlan>)
    requires Sound(hash, db) && StepOf(hash, db, p, s)
    ensures OnlyArchives(db.alerts, s.archived.alerts, p.recordedAt)
    ensures Accounted(s.archived.alerts, s.final.alerts, s.decisions, healthPlans, gapPlans, p)
  {
    hide Sound, Decide, PersistPlans, ArchiveEligible, Recorded, ValidProjection, WellFormed, WriteCheckpoint, AllReady;
    hide VerdictsAnswered, GapAnswered, Explained, Done, PlanReady, OnlyArchives, Settled, Plannable, IsNew, SampleReference;
    StepActsOnVerdicts(hash, db, p, s);
    ValidParts(hash, p);
    PlansAreReady(db, p, s.archived, s.decisions);
    healthPlans, gapPlans := PlansAnswerVerdicts(hash, s.archived, p, s.decisions);
    CooldownsRun(s.archived, p.recordedAt);
  }

  /**
   * A health alert opens only when its scope has failed with the alert's status for the whole
   * threshold: three observations in a row for degraded, two for unavailable.
   */
  lemma AlertOpensOnlyAtThreshold(hash: Hash, operations: seq<Operation>, p: HealthProjection, id: int)
    requires AcceptsNew(hash, OperateAll(hash, operations).db, p)
    requires var before, after := OperateAll(hash, operations).db.alerts, OperateAll(hash, operations + [SubmitOne(p)]).db.alerts;
             id in after && id !in before && after[id].state.scope != Sampling
    ensures var row := OperateAll(hash, operations + [SubmitOne(p)]).db.alerts[id];
            var inputs := ScopeInputs(hash, operations + [SubmitOne(p)], row.state.scope);
            && LastFailed(inputs, if row.state.kind == DegradedAlert then 3 else 2, SeverityOf(row.state.kind))
  {
    hide Accounted, StepOf, Ingest, OperateAll, AcceptsNew, Sound, ScopeInputs, StateAfter, EventAfter, OnlyArchives, LastFailed, LastHealed;
    SubmissionAppends(hash, operations, p);
    var s, healthPlans, gapPlans := AccountForStep(hash, operations, p);
    SameKeys(OperateAll(hash, operations).db.alerts, s.archived.alerts, p.recordedAt);
    var row := s.final.alerts[id];
    CreationIsDue(s.archived.alerts, s.final.alerts, s.decisions, healthPlans, gapPlans, p, id);
    NewestVerdict(hash, operations, p, s, row.state.scope);
    ConfirmedMeansLasted(ScopeInputs(hash, operations + [SubmitOne(p)], row.state.scope));
  }

  lemma SameKeys(before: Alerts, archived: Alerts, now: int)
    requires OnlyArchives(before, archived, now)
    ensures before.Keys == archived.Keys
  {
  }

  /** And when a status has lasted that long, its alert is there: open, acknowledged or still cooling down. */
  lemma LastingConditionHasAlert(hash: Hash, operations: seq<Operation>, p: HealthProjection, scope: AlertScope, status: Status)
    requires scope != Sampling && status != Healthy && AcceptsNew(hash, OperateAll(hash, operations).db, p)
    requires LastFailed(ScopeInputs(hash, operations + [SubmitOne(p)], scope), if status == Degraded then 3 else 2, status)
    ensures var after := OperateAll(hash, operations + [SubmitOne(p)]).db.alerts;
            exists id :: id in after && OfPair(after[id], scope, KindOf(status)) && Live(after[id])
  {
    hide Accounted, StepOf, Ingest, OperateAll, AcceptsNew, Sound, ScopeInputs, StateAfter, EventAfter, OnlyArchives, LastHealed;
    SubmissionAppends(hash, operations, p);
    var s, healthPlans, gapPlans := AccountForStep(hash, operations, p);
    NewestVerdict(hash, operations, p, s, scope);
    ConfirmedMeansLasted(ScopeInputs(hash, operations + [SubmitOne(p)], scope));
    FailedNewest(ScopeInputs(hash, operations + [SubmitOne(p)], scope), status);
    EveryScopeIsVisited(scope);
    ConditionIsRaised(s.archived.alerts, s.final.alerts, s.decisions, healthPlans, gapPlans, p, scope);
  }

  /**
   * A health alert recovers only when the two newest observations of its scope were healthy, and
   * then no alert of the scope is active any more.
   */
  lemma HealthRecoversTogether(hash: Hash, operations: seq<Operation>, p: HealthProjection, id: int)
    requires AcceptsNew(hash, OperateAll(hash, operations).db, p)
    requires var before, after := OperateAll(hash, operations).db.alerts, OperateAll(hash, operations + [SubmitOne(p)]).db.alerts;
             && id in before && id in after && before[id].state.scope != Sampling
             && IsActive(before[id].state.lifecycle) && !IsActive(after[id].state.lifecycle)
    ensures var after := OperateAll(hash, operations + [SubmitOne(p)]).db.alerts;
            var scope := OperateAll(hash, operations).db.alerts[id].state.scope;
            && LastHealed(ScopeInputs(hash, operations + [SubmitOne(p)], scope), 2)
            && !AlertActive(after, scope)
  {
    hide Accounted, StepOf, Ingest, OperateAll, AcceptsNew, Sound, ScopeInputs, OnlyArchives, StateAfter, EventAfter, LastFailed, LastHealed,
      IsActive;
    SubmissionAppends(hash, operations, p);
    var s, healthPlans, gapPlans := AccountForStep(hash, operations, p);
    var scope := OperateAll(hash, operations).db.alerts[id].state.scope;
    ActiveIsNotArchived(OperateAll(hash, operations).db.alerts, s.archived.alerts, p.recordedAt, id);
    ChangeIsDue(s.archived.alerts, s.final.alerts, s.decisions, healthPlans, gapPlans, p, id);
    NewestVerdict(hash, operations, p, s, scope);
    ConfirmedMeansLasted(ScopeInputs(hash, operations + [SubmitOne(p)], scope));
    EveryScopeIsVisited(scope);
    RecoveryIsComplete(s.archived.alerts, s.final.alerts, s.decisions, healthPlans, gapPlans, p, scope);
  }

  /** Once the debouncer confirms a recovery, no alert of the scope is active any more. */
  lemma ConfirmedRecoveryLeavesNone(hash: Hash, operations: seq<Operation>, p: HealthProjection, scope: AlertScope)
    requires scope != Sampling && AcceptsNew(hash, OperateAll(hash, operations).db, p)
    requires ValidInputs(ScopeInputs(hash, operations + [SubmitOne(p)], scope)) && ScopeInputs(hash, operations + [SubmitOne(p)], scope) != []
    requires EventAfter(ScopeInputs(hash, operations + [SubmitOne(p)], scope)) == RecoveryConfirmed
    ensures !AlertActive(OperateAll(hash, operations + [SubmitOne(p)]).db.alerts, scope)
  {
    hide Accounted, StepOf, Ingest, OperateAll, AcceptsNew, Sound, ScopeInputs, OnlyArchives, StateAfter, EventAfter;
    SubmissionAppends(hash, operations, p);
    var s, healthPlans, gapPlans := AccountForStep(hash, operations, p);
    NewestVerdict(hash, operations, p, s, scope);
    EveryScopeIsVisited(scope);
    RecoveryIsComplete(s.archived.alerts, s.final.alerts, s.decisions, healthPlans, gapPlans, p, scope);
  }

  lemma EveryScopeIsVisited(scope: AlertScope)
    requires scope != Sampling
    ensures Visited(scope, HEALTH_SCOPE_COUNT)
  {
  }

  lemma ActiveIsNotArchived(before: Alerts, archived: Alerts, now: int, id: int)
    requires OnlyArchives(before, archived, now) && id in before && IsActive(before[id].state.lifecycle)
    ensures id in archived && archived[id] == before[id]
  {
  }

  lemma FailedNewest(inputs: seq<HealthInput>, status: Status)
    requires LastFailed(inputs, OpenThreshold(status), status)
    ensures inputs != [] && inputs[|inputs| - 1].status == status
  {
  }

  // ---------- The gap alert ----------

  ghost predicate GapAlertJustified(db: Db) {
    && HasEveryScope(db.evaluation)
    && (ActiveIds(db.alerts, Sampling, SamplingGapAlert) != {} ==> GapUnderWay(db.evaluation[Sampling].gapPhase))
  }

  lemma StepJustifiesGap(hash: Hash, operations: seq<Operation>, p: HealthProjection)
    requires AcceptsNew(hash, OperateAll(hash, operations).db, p)
    requires GapAlertJustified(OperateAll(hash, operations).db)
    ensures GapAlertJustified(Ingest(hash, OperateAll(hash, operations).db, p).db)
  {
    hide Accounted, Ingest, OperateAll, AcceptsNew, Sound, Decide, ArchiveEligible, Settled, AllReady, PersistPlans;
    var db := OperateAll(hash, operations).db;
    var s, healthPlans, gapPlans := AccountForStep(hash, operations, p);
    StepWritesVerdict(hash, db, p, s, Sampling);
    ArchivalKeepsActive(db.alerts, s.archived.alerts, p.recordedAt, Sampling);
    assert WellFormed(p);
    hide StepOf, OnlyArchives;
    GapMoves(hash, s.archived, p, s.decisions);
    GapAlertsJustified(db.alerts, s.archived.alerts, s.final.alerts, s.decisions, healthPlans, gapPlans, p,
      GapUnderWay(db.evaluation[Sampling].gapPhase));
  }

  lemma GapAlertsJustified(
    before: Alerts, archived: Alerts, after: Alerts, d: Decisions, healthPlans: seq<AlertPlan>, gapPlans: seq<AlertPlan>,
    p: HealthProjection, wasUnderWay: bool)
    requires Accounted(archived, after, d, healthPlans, gapPlans, p)
    requires forall id :: id in archived && IsActive(archived[id].state.lifecycle) ==> id in before && before[id] == archived[id]
    requires ActiveIds(before, Sampling, SamplingGapAlert) != {} ==> wasUnderWay
    requires wasUnderWay ==> GapUnderWay(d.gap.state.phase) || d.gap.event == GapRecovered
    ensures ActiveIds(after, Sampling, SamplingGapAlert) != {} ==> GapUnderWay(d.gap.state.phase)
  {
    forall id | id in ActiveIds(after, Sampling, SamplingGapAlert)
      ensures GapUnderWay(d.gap.state.phase)
    {
      if id in archived {
        ChangeIsDue(archived, after, d, healthPlans, gapPlans, p, id);
        assert id in ActiveIds(before, Sampling, SamplingGapAlert);
        if d.gap.event == GapRecovered {
          GapRecoveryIsComplete(archived, after, d, healthPlans, gapPlans, p, id);
        }
      } else {
        CreationIsDue(archived, after, d, healthPlans, gapPlans, p, id);
      }
    }
  }

  /** The phase leaves a gap only by a recovery. */
  lemma GapMoves(hash: Hash, db: Db, p: HealthProjection, d: Decisions)
    requires WellFormed(p) && HasEveryScope(db.evaluation) && Decide(hash, db, p) == Success(d)
    ensures GapUnderWay(db.evaluation[Sampling].gapPhase) ==>
              GapUnderWay(d.gap.state.phase) || d.gap.event == GapRecovered
  {
    DecisionParts(hash, db, p, d);
    hide Decide;
    GapStartsAndEnds(GapStateOf(db), GapObservationOf(p));
  }

  lemma GapRecoveryIsComplete(
    archived: Alerts, after: Alerts, d: Decisions, healthPlans: seq<AlertPlan>, gapPlans: seq<AlertPlan>, p: HealthProjection, id: int)
    requires Accounted(archived, after, d, healthPlans, gapPlans, p)
    requires id in archived && d.gap.event == GapRecovered && PairOf(archived[id]) == (Sampling, SamplingGapAlert)
    ensures !IsActive(after[id].state.lifecycle)
  {
    ChangeIsDue(archived, after, d, healthPlans, gapPlans, p, id);
    if IsActive(archived[id].state.lifecycle) {
      assert id in ActiveIds(archived, Sampling, SamplingGapAlert);
      var i :| 0 <= i < |gapPlans| && Heals(archived, gapPlans[i], id, p.recordedAt);
      assert d.plans[|healthPlans| + i] == gapPlans[i] && Done(after, d.plans[|healthPlans| + i]);
    }
  }

  /** In every reachable database an active gap alert means that a gap is under way or just ending. */
  lemma {:induction false} ActiveGapAlertMeansGap(hash: Hash, operations: seq<Operation>)
    ensures GapAlertJustified(OperateAll(hash, operations).db)
  {
    hide Sound, TracksAccepted, Ingest, GapAlertJustified, Operate;
    if operations == [] {
      FreshGapJustified();
    } else {
      var n := |operations| - 1;
      var before := OperateAll(hash, operations[..n]);
      ActiveGapAlertMeansGap(hash, operations[..n]);
      OperationsKeepSound(hash, operations[..n]);
      match operations[n] {
        case SubmitOne(p) => SubmissionJustifiesGap(hash, operations[..n], p);
        case CleanUp(cutoff) =>
          CleanupKeepsStates(hash, before, cutoff);
          KeptStatesJustifyGap(before.db, Operate(hash, before, CleanUp(cutoff)).db);
      }
    }
  }

  lemma FreshGapJustified()
    ensures GapAlertJustified(EMPTY_DB)
  {
  }

  lemma SubmissionJustifiesGap(hash: Hash, operations: seq<Operation>, p: HealthProjection)
    requires GapAlertJustified(OperateAll(hash, operations).db) && Sound(hash, OperateAll(hash, operations).db)
    ensures GapAlertJustified(Operate(hash, OperateAll(hash, operations), SubmitOne(p)).db)
  {
    hide Sound, Ingest, GapAlertJustified, OperateAll;
    if AcceptsNew(hash, OperateAll(hash, operations).db, p) {
      StepJustifiesGap(hash, operations, p);
    } else {
      IngestionKeepsTrust(hash, OperateAll(hash, operations).db, p);
    }
  }

  lemma KeptStatesJustifyGap(before: Db, after: Db)
    requires GapAlertJustified(before) && KeepsStates(before, after)
    ensures GapAlertJustified(after)
  {
    forall id | id in ActiveIds(after.alerts, Sampling, SamplingGapAlert)
      ensures id in ActiveIds(before.alerts, Sampling, SamplingGapAlert)
    {
    }
  }
}
