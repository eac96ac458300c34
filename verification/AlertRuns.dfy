/**
 * The alert table refines the reference machine: after any mix of submissions and cleanups it shows what
 * the machine makes of the accepted observations alone.
 */
module AlertRuns {
  import opened Wrappers
  import opened HealthModels
  import opened Projection
  import opened Evaluation
  import opened SamplingGap
  import opened Lifecycle
  import opened HistoryTables
  import opened Ingestion
  import opened AlertTable
  import opened AlertMachine
  import opened AlertPlans
  import opened AlertPlanning
  import opened IngestionSafety
  import opened IngestionRuns
  import opened ExactlyOnce
  import opened Retention
  import opened RetentionRuns
  import opened RetentionEffects
  import opened MixedRuns
  import opened PlanEffects
  import opened Debouncing

  // ---------- One pair in one step ----------

  lemma LiveIsOne(alerts: Alerts, a: int, b: int)
    requires LiveIsNewest(alerts) && a in alerts && b in alerts && PairOf(alerts[a]) == PairOf(alerts[b])
    requires Live(alerts[a]) && Live(alerts[b])
    ensures a == b
  {
    assert SamePair(alerts[a], alerts[b]) && SamePair(alerts[b], alerts[a]);
  }

  /** Archival takes the machine's alert out when its cooldown is over, and no other. */
  lemma ArchivalIsShown(before: Alerts, archived: Alerts, scope: AlertScope, kind: AlertKind, t: Tracked, now: int)
    requires OnlyArchives(before, archived, now) && LiveIsNewest(before)
    requires forall id :: id in before ==> before[id].state.Valid()
    requires forall id :: id in archived && archived[id].state.lifecycle == Recovered ==> now < archived[id].state.cooldownUntil
    requires Shows(before, scope, kind, t)
    ensures Shows(archived, scope, kind, Cooled(t, now))
  {
    if t != NotRaised {
      var id :| id in before && OfPair(before[id], scope, kind) && Live(before[id]) && Track(before[id].state) == t;
      if Cooled(t, now) == NotRaised {
        forall other | other in archived && OfPair(archived[other], scope, kind)
          ensures !Live(archived[other])
        {
          if Live(before[other]) {
            LiveIsOne(before, id, other);
          }
        }
      } else {
        assert archived[id] == before[id];
      }
    }
  }

  /** No plan of the step is about this pair, unless it heals. */
  ghost predicate OnlyHeals(plans: seq<AlertPlan>, scope: AlertScope, kind: AlertKind, heals: bool) {
    forall i :: 0 <= i < |plans| && Target(plans[i]) == (scope, kind) ==>
      heals && plans[i].transition.event == Some(RecoveredEvent)
  }

  /** Without a plan that raises something, what is live stays what it is, unless it is healed. */
  lemma NothingIsRaised(
    archived: Alerts, after: Alerts, d: Decisions, healthPlans: seq<AlertPlan>, gapPlans: seq<AlertPlan>, p: HealthProjection,
    scope: AlertScope, kind: AlertKind, heals: bool, id: int)
    requires Accounted(archived, after, d, healthPlans, gapPlans, p) && OnlyHeals(d.plans, scope, kind, heals)
    requires id in after && OfPair(after[id], scope, kind)
    ensures id in archived && PairOf(archived[id]) == PairOf(after[id]) && (Live(after[id]) ==> Live(archived[id]))
    ensures after[id] == archived[id] || (heals && IsActive(archived[id].state.lifecycle))
  {
    assert Explained(archived, after, d.plans, id);
    AddersTarget(archived, d.plans, p.recordedAt, after[id].state);
    if id in archived {
      TakersTarget(archived, d.plans, p.recordedAt, id, after[id].state);
      TakersMove(archived, d.plans, p.recordedAt, id, after[id].state);
    }
    hide PlanReady, VerdictsAnswered, GapAnswered, Done, Target, Adds, Takes;
  }

  lemma AddersTarget(archived: Alerts, plans: seq<AlertPlan>, now: int, state: AlertState)
    requires forall j :: 0 <= j < |plans| ==> PlanReady(archived, plans[j], now)
    ensures forall j :: 0 <= j < |plans| && Adds(plans[j], state) ==>
              Target(plans[j]) == (state.scope, state.kind) && plans[j].transition.event == Some(OpenedEvent)
  {
    forall j | 0 <= j < |plans| && Adds(plans[j], state)
      ensures Target(plans[j]) == (state.scope, state.kind) && plans[j].transition.event == Some(OpenedEvent)
    {
      assert PlanReady(archived, plans[j], now);
    }
  }

  /** A plan moves only what is live, and heals only what is active. */
  lemma TakersMove(archived: Alerts, plans: seq<AlertPlan>, now: int, id: int, state: AlertState)
    requires id in archived && forall j :: 0 <= j < |plans| ==> PlanReady(archived, plans[j], now)
    ensures forall j :: 0 <= j < |plans| && Takes(plans[j], id, state) ==>
              && PairOf(archived[id]) == (state.scope, state.kind) && archived[id].state.lifecycle != Archived
              && (plans[j].transition.event == Some(RecoveredEvent) ==> IsActive(archived[id].state.lifecycle))
  {
    forall j | 0 <= j < |plans| && Takes(plans[j], id, state)
      ensures PairOf(archived[id]) == (state.scope, state.kind) && archived[id].state.lifecycle != Archived
      ensures plans[j].transition.event == Some(RecoveredEvent) ==> IsActive(archived[id].state.lifecycle)
    {
      assert PlanReady(archived, plans[j], now);
    }
  }

  lemma QuietIsShown(
    archived: Alerts, after: Alerts, d: Decisions, healthPlans: seq<AlertPlan>, gapPlans: seq<AlertPlan>, p: HealthProjection,
    scope: AlertScope, kind: AlertKind, t: Tracked)
    requires Accounted(archived, after, d, healthPlans, gapPlans, p) && OnlyHeals(d.plans, scope, kind, false)
    requires Shows(archived, scope, kind, t)
    ensures Shows(after, scope, kind, t)
  {
    hide VerdictsAnswered, GapAnswered, AllReady;
    forall id | id in after && OfPair(after[id], scope, kind)
      ensures id in archived && after[id] == archived[id]
    {
      NothingIsRaised(archived, after, d, healthPlans, gapPlans, p, scope, kind, false, id);
    }
    if t != NotRaised {
      var id :| id in archived && OfPair(archived[id], scope, kind) && Live(archived[id]) && Track(archived[id].state) == t;
      StaysLive(archived, after, d, healthPlans, gapPlans, p, id);
    }
  }

  lemma ConfirmedIsShown(
    archived: Alerts, after: Alerts, d: Decisions, healthPlans: seq<AlertPlan>, gapPlans: seq<AlertPlan>, p: HealthProjection,
    scope: AlertScope, kind: AlertKind, t: Tracked, i: nat)
    requires Accounted(archived, after, d, healthPlans, gapPlans, p) && LiveIsNewest(archived)
    requires i < |d.plans| && Raises(archived, d.plans[i], scope, kind, p.recordedAt)
    requires Shows(archived, scope, kind, t)
    ensures Shows(after, scope, kind, if t == NotRaised then Raised(1, CooldownFrom(p.recordedAt)) else Again(t, p.recordedAt))
  {
    var id := RaisedByPlan(archived, after, d, healthPlans, gapPlans, p, i, scope, kind);
    hide Accounted, Raises;
    if t != NotRaised {
      var shown :| id in after && shown in archived && OfPair(archived[shown], scope, kind) && Live(archived[shown])
        && Track(archived[shown].state) == t;
      if id in archived {
        LiveIsOne(archived, id, shown);
      }
    }
  }

  lemma HealedIsShown(
    archived: Alerts, after: Alerts, d: Decisions, healthPlans: seq<AlertPlan>, gapPlans: seq<AlertPlan>, p: HealthProjection,
    scope: AlertScope, kind: AlertKind, t: Tracked)
    requires Accounted(archived, after, d, healthPlans, gapPlans, p) && LiveIsNewest(archived)
    requires OnlyHeals(d.plans, scope, kind, true)
    requires forall id :: id in archived ==> archived[id].state.Valid()
    requires forall id :: id in ActiveIds(archived, scope, kind) ==>
               exists i :: 0 <= i < |d.plans| && Heals(archived, d.plans[i], id, p.recordedAt)
    requires Shows(archived, scope, kind, t) && (t.Cooling? ==> p.recordedAt < t.until)
    ensures Shows(after, scope, kind, Next(t, Healed, p.recordedAt))
  {
    hide VerdictsAnswered, GapAnswered, AllReady, OnlyHeals, Explained, PlanReady, LiveIsNewest;
    forall id | id in after && OfPair(after[id], scope, kind)
      ensures id in archived && PairOf(archived[id]) == PairOf(after[id]) && (Live(after[id]) ==> Live(archived[id]))
      ensures after[id] == archived[id] || IsActive(archived[id].state.lifecycle)
    {
      NothingIsRaised(archived, after, d, healthPlans, gapPlans, p, scope, kind, true, id);
    }
    if t != NotRaised {
      var id :| id in archived && OfPair(archived[id], scope, kind) && Live(archived[id]) && Track(archived[id].state) == t;
      StaysLive(archived, after, d, healthPlans, gapPlans, p, id);
      if t.Raised? {
        assert id in ActiveIds(archived, scope, kind);
        var i :| 0 <= i < |d.plans| && Heals(archived, d.plans[i], id, p.recordedAt);
        assert Done(after, d.plans[i]);
      }
    }
  }

  /** Why the machine's signal for a pair is the right one: what plans the step makes for the pair. */
  ghost predicate SignalFits(
    archived: Alerts, d: Decisions, scope: AlertScope, kind: AlertKind, signal: Signal, now: int)
  {
    match signal
    case Quiet => OnlyHeals(d.plans, scope, kind, false)
    case Confirmed => exists i :: 0 <= i < |d.plans| && Raises(archived, d.plans[i], scope, kind, now)
    case Healed =>
      && OnlyHeals(d.plans, scope, kind, true)
      && forall id :: id in ActiveIds(archived, scope, kind) ==>
           exists i :: 0 <= i < |d.plans| && Heals(archived, d.plans[i], id, now)
  }

  lemma PairMoves(
    before: Alerts, archived: Alerts, after: Alerts, d: Decisions, healthPlans: seq<AlertPlan>, gapPlans: seq<AlertPlan>,
    p: HealthProjection, scope: AlertScope, kind: AlertKind, signal: Signal, t: Tracked)
    requires OnlyArchives(before, archived, p.recordedAt) && AlertsOk(before) && AlertsOk(archived)
    requires Accounted(archived, after, d, healthPlans, gapPlans, p)
    requires SignalFits(archived, d, scope, kind, signal, p.recordedAt)
    requires Shows(before, scope, kind, t)
    ensures Shows(after, scope, kind, Next(t, signal, p.recordedAt))
  {
    hide Raises, Heals, Shows, ActiveIds, VerdictsAnswered, GapAnswered, AllReady, LiveIsNewest;
    ArchivalIsShown(before, archived, scope, kind, t, p.recordedAt);
    var cooled := Cooled(t, p.recordedAt);
    match signal {
      case Quiet => QuietIsShown(archived, after, d, healthPlans, gapPlans, p, scope, kind, cooled);
      case Confirmed =>
        var i :| 0 <= i < |d.plans| && Raises(archived, d.plans[i], scope, kind, p.recordedAt);
        ConfirmedIsShown(archived, after, d, healthPlans, gapPlans, p, scope, kind, cooled, i);
      case Healed => HealedIsShown(archived, after, d, healthPlans, gapPlans, p, scope, kind, cooled);
    }
  }

  // ---------- Health scopes ----------

  /** What the debouncer is told about an observation is what the machine sees in it. */
  ghost predicate Means(input: HealthInput, p: HealthProjection, scope: AlertScope) {
    && (input.status == Healthy <==> Thrives(p, scope))
    && (input.Failing() && input.status == Degraded <==> Fails(p, scope, Degraded))
    && (input.Failing() && input.status == Unavailable <==> Fails(p, scope, Unavailable))
  }

  lemma InputMeans(p: HealthProjection, scope: AlertScope, activeAlert: bool)
    requires WellFormed(p) && scope != Sampling
    ensures Means(ScopeInput(p, scope, activeAlert), p, scope)
  {
    if scope.Component? {
      ComponentIsFound(p, scope.name);
    } else if p.overall != Healthy {
      OverallMeans(p, p.overall);
    }
  }

  lemma ComponentIsFound(p: HealthProjection, name: ComponentName)
    requires WellFormed(p)
    ensures p.components[ComponentIndex(name)] in p.components && p.components[ComponentIndex(name)].component == name
    ensures forall c :: c in p.components && c.component == name ==> c == p.components[ComponentIndex(name)]
  {
    hide WorstStatus;
  }

  lemma OverallMeans(p: HealthProjection, status: Status)
    requires WellFormed(p) && status != Healthy && p.overall == status
    ensures ScopeDisabled(p, Overall) <==> !Fails(p, Overall, status)
  {
    hide WorstStatus;
    assert forall i :: 0 <= i < |p.components| ==> p.components[i] in p.components;
  }

  ghost predicate AllMean(inputs: seq<HealthInput>, accepted: seq<HealthProjection>, scope: AlertScope) {
    |inputs| == |accepted| && forall i :: 0 <= i < |inputs| ==> Means(inputs[i], accepted[i], scope)
  }

  /** Debouncer inputs, accepted observations and alert table fit together for one scope. */
  ghost predicate Agrees(run: Run, inputs: seq<HealthInput>, scope: AlertScope) {
    var w := Watched(run.accepted, scope);
    && AllMean(inputs, run.accepted, scope)
    && HealingRun(inputs) == w.healing
    && Shows(run.db.alerts, scope, DegradedAlert, w.degraded)
    && Shows(run.db.alerts, scope, UnavailableAlert, w.unavailable)
  }

  /** Some health alert of a scope is active exactly if the machine has one raised. */
  lemma ActiveIsRaised(alerts: Alerts, scope: AlertScope, w: Watch)
    requires scope != Sampling && AlertsOk(alerts)
    requires Shows(alerts, scope, DegradedAlert, w.degraded) && Shows(alerts, scope, UnavailableAlert, w.unavailable)
    ensures AlertActive(alerts, scope) <==> w.degraded.Raised? || w.unavailable.Raised?
  {
    ActiveOfKind(alerts, scope, DegradedAlert, w.degraded);
    ActiveOfKind(alerts, scope, UnavailableAlert, w.unavailable);
    assert forall id :: id in alerts && IsActiveHealth(alerts[id], scope) ==>
        id in ActiveIds(alerts, scope, DegradedAlert) || id in ActiveIds(alerts, scope, UnavailableAlert);
    hide Shows, AlertsOk;
    if w.degraded.Raised? {
      var id :| id in ActiveIds(alerts, scope, DegradedAlert);
      assert IsActiveHealth(alerts[id], scope);
    } else if w.unavailable.Raised? {
      var id :| id in ActiveIds(alerts, scope, UnavailableAlert);
      assert IsActiveHealth(alerts[id], scope);
    }
  }

  lemma ActiveOfKind(alerts: Alerts, scope: AlertScope, kind: AlertKind, t: Tracked)
    requires AlertsOk(alerts) && Shows(alerts, scope, kind, t)
    ensures ActiveIds(alerts, scope, kind) != {} <==> t.Raised?
  {
    if t != NotRaised {
      var id :| id in alerts && OfPair(alerts[id], scope, kind) && Live(alerts[id]) && Track(alerts[id].state) == t;
      forall other | other in ActiveIds(alerts, scope, kind)
        ensures other == id
      {
        LiveIsOne(alerts, id, other);
      }
      assert id in ActiveIds(alerts, scope, kind) <==> t.Raised?;
    }
    if !t.Raised? {
      assert forall id :: id !in ActiveIds(alerts, scope, kind);
      assert ActiveIds(alerts, scope, kind) == {};
    }
  }

  /** The signal for a health alert is the verdict of the debouncer on its scope. */
  lemma VerdictFits(
    archived: Alerts, after: Alerts, d: Decisions, healthPlans: seq<AlertPlan>, gapPlans: seq<AlertPlan>, p: HealthProjection,
    scope: AlertScope, kind: AlertKind)
    requires Accounted(archived, after, d, healthPlans, gapPlans, p)
    requires scope != Sampling && kind != SamplingGapAlert && scope in d.health
    ensures var t := d.health[scope];
            var signal :=
              if t.event == RecoveryConfirmed then Healed
              else if t.event == ConditionConfirmed && t.state.current == Some(SeverityOf(kind)) then Confirmed
              else Quiet;
            SignalFits(archived, d, scope, kind, signal, p.recordedAt)
  {
    EveryScopeIsVisited(scope);
    var t := d.health[scope];
    forall i | 0 <= i < |d.plans| && Target(d.plans[i]).0 == scope
      ensures DueTo(t, scope, d.plans[i])
    {
      PlanOrigin(archived, after, d, healthPlans, gapPlans, p, i);
    }
    assert Answers(archived, scope, t, healthPlans, p.recordedAt);
    assert forall i :: 0 <= i < |healthPlans| ==> d.plans[i] == healthPlans[i];
    hide Accounted, Raises, Heals, DueTo;
    assert forall i :: 0 <= i < |d.plans| && Target(d.plans[i]).0 == scope ==> DueTo(t, scope, d.plans[i]);
  }

  lemma FailuresAgree(inputs: seq<HealthInput>, accepted: seq<HealthProjection>, scope: AlertScope, status: Status, n: nat)
    requires AllMean(inputs, accepted, scope) && status != Healthy
    ensures LastFailed(inputs, n, status) <==> LastFailures(accepted, scope, status, n)
  {
    hide Fails, Thrives, HealthInput.Failing;
  }

  /** The newest observation of a scope: what the debouncer says is what the machine signals. */
  lemma SignalsAgree(
    inputs: seq<HealthInput>, accepted: seq<HealthProjection>, scope: AlertScope, kind: AlertKind, healing: nat)
    requires AllMean(inputs, accepted, scope) && ValidInputs(inputs) && inputs != []
    requires kind != SamplingGapAlert && HealingRun(inputs) == healing <= 2
    ensures HealthSignal(accepted, scope, kind, healing) ==
              (if EventAfter(inputs) == RecoveryConfirmed then Healed
               else if EventAfter(inputs) == ConditionConfirmed && StateAfter(inputs).current == Some(SeverityOf(kind)) then Confirmed
               else Quiet)
  {
    ConfirmedMeansLasted(inputs);
    RecoveredExactlyAtEverySecond(inputs);
    FailuresAgree(inputs, accepted, scope, Degraded, 3);
    FailuresAgree(inputs, accepted, scope, Unavailable, 2);
    if LastFailed(inputs, 3, Degraded) { NewestFailed(inputs, Degraded, 3); }
    if LastFailed(inputs, 2, Unavailable) { NewestFailed(inputs, Unavailable, 2); }
    hide EventAfter, StateAfter, HealingRun, LastFailed, LastFailures, AllMean, ValidInputs;
  }

  lemma NewestFailed(inputs: seq<HealthInput>, status: Status, n: nat)
    requires LastFailed(inputs, n, status) && n > 0
    ensures inputs != [] && inputs[|inputs| - 1].status == status
  {
  }

  /** One more observation, for the debouncer and for the machine. */
  lemma InputsStayAgreed(run: Run, inputs: seq<HealthInput>, p: HealthProjection, scope: AlertScope)
    requires Agrees(run, inputs, scope) && scope != Sampling && AlertsOk(run.db.alerts) && WellFormed(p)
    ensures var inputs', accepted' := inputs + [ScopeInput(p, scope, AlertActive(run.db.alerts, scope))], run.accepted + [p];
            AllMean(inputs', accepted', scope) && HealingRun(inputs') == Watched(accepted', scope).healing
  {
    InputMeans(p, scope, AlertActive(run.db.alerts, scope));
    ActiveIsRaised(run.db.alerts, scope, Watched(run.accepted, scope));
    hide Shows, Fails, Thrives, AlertsOk, AlertActive, WellFormed, HealthSignal, Next, HealthInput.Failing, ScopeStatus, ScopeDisabled;
    var input := ScopeInput(p, scope, AlertActive(run.db.alerts, scope));
    assert (inputs + [input])[..|inputs|] == inputs && (run.accepted + [p])[..|run.accepted|] == run.accepted;
  }

  lemma WatchMoves(accepted: seq<HealthProjection>, p: HealthProjection, scope: AlertScope)
    ensures var before, after := Watched(accepted, scope), Watched(accepted + [p], scope);
            && after.degraded ==
                 Next(before.degraded, HealthSignal(accepted + [p], scope, DegradedAlert, after.healing), p.recordedAt)
            && after.unavailable ==
                 Next(before.unavailable, HealthSignal(accepted + [p], scope, UnavailableAlert, after.healing), p.recordedAt)
  {
    hide HealthSignal, Next, Thrives;
    assert (accepted + [p])[..|accepted|] == accepted;
  }

  lemma PairStepAgrees(
    hash: Hash, operations: seq<Operation>, p: HealthProjection, scope: AlertScope, kind: AlertKind, t: Tracked, healing: nat,
    accepted: seq<HealthProjection>)
    requires scope != Sampling && kind != SamplingGapAlert && AcceptsNew(hash, OperateAll(hash, operations).db, p)
    requires Shows(OperateAll(hash, operations).db.alerts, scope, kind, t)
    requires var inputs := ScopeInputs(hash, operations + [SubmitOne(p)], scope);
             AllMean(inputs, accepted, scope) && HealingRun(inputs) == healing <= 2
    ensures Shows(
              Ingest(hash, OperateAll(hash, operations).db, p).db.alerts, scope, kind,
              Next(t, HealthSignal(accepted, scope, kind, healing), p.recordedAt))
  {
    hide *;
    var s, healthPlans, gapPlans := AccountForStep(hash, operations, p);
    NewestVerdict(hash, operations, p, s, scope);
    SignalsAgree(ScopeInputs(hash, operations + [SubmitOne(p)], scope), accepted, scope, kind, healing);
    VerdictFits(s.archived.alerts, s.final.alerts, s.decisions, healthPlans, gapPlans, p, scope, kind);
    AlertsOfStep(hash, OperateAll(hash, operations).db, p, s);
    PairMoves(
      OperateAll(hash, operations).db.alerts, s.archived.alerts, s.final.alerts, s.decisions, healthPlans, gapPlans, p, scope, kind,
      HealthSignal(accepted, scope, kind, healing), t);
  }

  lemma AlertsOfStep(hash: Hash, db: Db, p: HealthProjection, s: Step)
    requires Sound(hash, db) && StepOf(hash, db, p, s)
    ensures AlertsOk(db.alerts) && AlertsOk(s.archived.alerts)
  {
    hide ValidProjection, WellFormed, IsNew, Settled, ArchiveEligible, Decide, Plannable, Recorded, SampleReference, PersistPlans,
      WriteCheckpoint, LedgerOk, EvaluationOk, SamplesOk, BaselineOk, AlertsOk;
  }

  lemma StepAgrees(hash: Hash, operations: seq<Operation>, p: HealthProjection, scope: AlertScope)
    requires scope != Sampling && AcceptsNew(hash, OperateAll(hash, operations).db, p)
    requires Agrees(OperateAll(hash, operations), ScopeInputs(hash, operations, scope), scope)
    ensures Agrees(
              OperateAll(hash, operations + [SubmitOne(p)]), ScopeInputs(hash, operations + [SubmitOne(p)], scope), scope)
  {
    hide OperateAll, ScopeInputs, Ingest, AcceptsNew, AllMean, Sound, TracksAccepted, Shows, Watched, HealingRun, AlertsOk, WellFormed,
      Next, HealthSignal;
    var run := OperateAll(hash, operations);
    OperationsKeepSound(hash, operations);
    SoundParts(hash, run.db);
    AcceptedAdvances(hash, run.db, p);
    SubmissionAppends(hash, operations, p);
    AcceptedGrows(hash, run, p);
    InputsAppend(hash, operations, p, scope);
    InputsStayAgreed(run, ScopeInputs(hash, operations, scope), p, scope);
    HealingEnds(run.accepted + [p], scope);
    var w := Watched(run.accepted, scope);
    var healing := Watched(run.accepted + [p], scope).healing;
    PairStepAgrees(hash, operations, p, scope, DegradedAlert, w.degraded, healing, run.accepted + [p]);
    PairStepAgrees(hash, operations, p, scope, UnavailableAlert, w.unavailable, healing, run.accepted + [p]);
    WatchMoves(run.accepted, p, scope);
  }

  lemma AcceptedGrows(hash: Hash, run: Run, p: HealthProjection)
    requires AcceptsNew(hash, run.db, p)
    ensures Submit(hash, run, p) == Run(Ingest(hash, run.db, p).db, run.accepted + [p])
  {
    hide Ingest, LeavesTables;
  }

  // ---------- Health scopes over whole runs ----------

  lemma RefusedAgrees(hash: Hash, operations: seq<Operation>, p: HealthProjection, scope: AlertScope)
    requires !AcceptsNew(hash, OperateAll(hash, operations).db, p)
    requires Agrees(OperateAll(hash, operations), ScopeInputs(hash, operations, scope), scope)
    ensures Agrees(
              OperateAll(hash, operations + [SubmitOne(p)]), ScopeInputs(hash, operations + [SubmitOne(p)], scope), scope)
  {
    hide Agrees, Ingest, Sound, TracksAccepted;
    OperationsKeepSound(hash, operations);
    SubmissionAppends(hash, operations, p);
    RefusedChangesNothing(hash, OperateAll(hash, operations), p);
    assert (operations + [SubmitOne(p)])[..|operations|] == operations;
  }

  lemma RefusedChangesNothing(hash: Hash, run: Run, p: HealthProjection)
    requires Sound(hash, run.db) && !AcceptsNew(hash, run.db, p)
    ensures Submit(hash, run, p) == run
  {
    hide Sound, Ingest, ValidProjection, IsNew, DisabledButHealthy;
    IngestionKeepsTrust(hash, run.db, p);
  }

  /** A cleanup takes away archived alerts only. */
  lemma CleanupShowsTheSame(before: Db, after: Db, cutoff: int, scope: AlertScope, kind: AlertKind, t: Tracked)
    requires KeepsRecent(before, after, cutoff) && AddsNothing(before, after)
    requires forall id :: id in after.alerts && id in before.alerts ==> after.alerts[id].state == before.alerts[id].state
    requires Shows(before.alerts, scope, kind, t)
    ensures Shows(after.alerts, scope, kind, t)
  {
    if t != NotRaised {
      var id :| id in before.alerts && OfPair(before.alerts[id], scope, kind) && Live(before.alerts[id])
        && Track(before.alerts[id].state) == t;
      assert !OldAlert(before.alerts[id], cutoff);
    }
  }

  lemma CleanupShows(hash: Hash, run: Run, cutoff: int, scope: AlertScope, kind: AlertKind, t: Tracked)
    requires Sound(hash, run.db) && TracksAccepted(hash, run.db, run.accepted) && Shows(run.db.alerts, scope, kind, t)
    ensures Shows(Operate(hash, run, CleanUp(cutoff)).db.alerts, scope, kind, t)
    ensures Operate(hash, run, CleanUp(cutoff)).accepted == run.accepted
  {
    hide Sound, TracksAccepted, Cleanup, Plan, Shows, KeepsRecent, AddsNothing, DividedAt, NothingOld;
    CleanupEffects(run.db, cutoff);
    CleanupKeepsStates(hash, run, cutoff);
    CleanupShowsTheSame(run.db, Cleanup(run.db, cutoff).value, cutoff, scope, kind, t);
  }

  lemma CleanupAgrees(hash: Hash, operations: seq<Operation>, cutoff: int, scope: AlertScope)
    requires Agrees(OperateAll(hash, operations), ScopeInputs(hash, operations, scope), scope)
    ensures Agrees(
              OperateAll(hash, operations + [CleanUp(cutoff)]), ScopeInputs(hash, operations + [CleanUp(cutoff)], scope), scope)
  {
    hide AllMean, Watched, HealingRun, Shows, Operate, Sound, TracksAccepted;
    var run := OperateAll(hash, operations);
    OperationsKeepSound(hash, operations);
    CleanupShows(hash, run, cutoff, scope, DegradedAlert, Watched(run.accepted, scope).degraded);
    CleanupShows(hash, run, cutoff, scope, UnavailableAlert, Watched(run.accepted, scope).unavailable);
    assert (operations + [CleanUp(cutoff)])[..|operations|] == operations;
  }

  lemma NothingAgrees(hash: Hash, scope: AlertScope)
    ensures Agrees(OperateAll(hash, []), ScopeInputs(hash, [], scope), scope)
  {
    assert OperateAll(hash, []).db.alerts == map[];
  }

  lemma {:induction false} RunsAgree(hash: Hash, operations: seq<Operation>, scope: AlertScope)
    requires scope != Sampling
    ensures Agrees(OperateAll(hash, operations), ScopeInputs(hash, operations, scope), scope)
  {
    hide *;
    if operations == [] {
      NothingAgrees(hash, scope);
    } else {
      var n := |operations| - 1;
      RunsAgree(hash, operations[..n], scope);
      assert operations == operations[..n] + [operations[n]];
      match operations[n] {
        case SubmitOne(p) =>
          if AcceptsNew(hash, OperateAll(hash, operations[..n]).db, p) {
            StepAgrees(hash, operations[..n], p, scope);
          } else {
            RefusedAgrees(hash, operations[..n], p, scope);
          }
        case CleanUp(cutoff) => CleanupAgrees(hash, operations[..n], cutoff, scope);
      }
    }
  }

  /**
   * After any mix of submissions and cleanups, the health alerts that are not archived are those of the
   * machine, which knows the accepted observations only: raised or cooling down as it says, with its number
   * of occurrences, its cooldown and its time of recovery.
   */
  lemma HealthAlertsFollowMachine(hash: Hash, operations: seq<Operation>, scope: AlertScope)
    requires scope != Sampling
    ensures var run := OperateAll(hash, operations);
            && Shows(run.db.alerts, scope, DegradedAlert, Watched(run.accepted, scope).degraded)
            && Shows(run.db.alerts, scope, UnavailableAlert, Watched(run.accepted, scope).unavailable)
  {
    hide Shows, Watched, OperateAll, ScopeInputs;
    RunsAgree(hash, operations, scope);
  }

  // ---------- Sampling gaps ----------

  /** The newest observation that says anything was on time. */
  ghost predicate Recovering(accepted: seq<HealthProjection>) {
    exists j :: 0 <= j < |accepted| && OnTime(accepted[j]) && forall m :: j < m < |accepted| ==> SaysNothing(accepted[m])
  }

  /** The newest observation but for markers missed a single interval. */
  ghost predicate JustMissed(accepted: seq<HealthProjection>) {
    exists j :: 0 <= j < |accepted| && accepted[j].missedIntervals == 1 && accepted[j].kind != ClockDiscontinuity
      && forall m :: j < m < |accepted| ==> SaysNothing(accepted[m]) || accepted[m].kind == ClockDiscontinuity
  }

  /** The phase of the gap machine, said about the observations. */
  ghost predicate PhaseMeans(phase: SamplingGapPhase, accepted: seq<HealthProjection>) {
    && (GapUnderWay(phase) <==> InGap(accepted))
    && (InGap(accepted) ==> (phase == RecoveryOne <==> Recovering(accepted)))
    && (!InGap(accepted) ==> (phase == CandidateOne <==> JustMissed(accepted)))
  }

  lemma GapOpens(accepted: seq<HealthProjection>, p: HealthProjection)
    requires OpensGap(p)
    ensures InGap(accepted + [p])
  {
    assert GapLasts(accepted + [p], |accepted|);
  }

  lemma EndsAlike(accepted: seq<HealthProjection>, p: HealthProjection, j: nat, k: nat)
    requires j < k < |accepted|
    ensures EndsGap(accepted + [p], j, k) == EndsGap(accepted, j, k)
  {
    assert forall m :: 0 <= m < |accepted| ==> (accepted + [p])[m] == accepted[m];
  }

  lemma EndsWithNewest(accepted: seq<HealthProjection>, p: HealthProjection, j: nat)
    requires j < |accepted|
    ensures EndsGap(accepted + [p], j, |accepted|) ==> OnTime(p) && Recovering(accepted)
  {
    var longer := accepted + [p];
    if EndsGap(longer, j, |accepted|) {
      assert OnTime(accepted[j]);
      forall m | j < m < |accepted|
        ensures SaysNothing(accepted[m])
      {
        assert SaysNothing(longer[m]);
      }
    }
  }

  lemma GapGoesOn(accepted: seq<HealthProjection>, p: HealthProjection)
    requires !(OnTime(p) && Recovering(accepted)) && InGap(accepted)
    ensures InGap(accepted + [p])
  {
    var i :| 0 <= i < |accepted| && GapLasts(accepted, i);
    var longer := accepted + [p];
    forall j, k | i < j < k < |longer|
      ensures !EndsGap(longer, j, k)
    {
      if k < |accepted| {
        EndsAlike(accepted, p, j, k);
      } else {
        EndsWithNewest(accepted, p, j);
      }
    }
    assert GapLasts(longer, i);
  }

  lemma GapEnds(accepted: seq<HealthProjection>, p: HealthProjection)
    requires OnTime(p) && Recovering(accepted)
    ensures !InGap(accepted + [p])
  {
    var longer := accepted + [p];
    var j :| 0 <= j < |accepted| && OnTime(accepted[j]) && forall m :: j < m < |accepted| ==> SaysNothing(accepted[m]);
    assert EndsGap(longer, j, |accepted|);
    forall i | 0 <= i < |longer|
      ensures !GapLasts(longer, i)
    {
      if i >= j {
        assert i == j || i == |accepted| || SaysNothing(accepted[i]);
      }
    }
  }

  lemma NoGapWithoutOpening(accepted: seq<HealthProjection>, p: HealthProjection)
    requires !OpensGap(p) && !InGap(accepted)
    ensures !InGap(accepted + [p])
  {
    var longer := accepted + [p];
    forall i | 0 <= i < |longer|
      ensures !GapLasts(longer, i)
    {
      if i < |accepted| && OpensGap(longer[i]) {
        assert !GapLasts(accepted, i);
        var j, k :| i < j < k < |accepted| && EndsGap(accepted, j, k);
        assert EndsGap(longer, j, k);
      }
    }
  }

  lemma RecoveringMoves(accepted: seq<HealthProjection>, p: HealthProjection)
    ensures Recovering(accepted + [p]) <==> OnTime(p) || (SaysNothing(p) && Recovering(accepted))
  {
    var longer := accepted + [p];
    if OnTime(p) {
      assert OnTime(longer[|accepted|]);
    }
    if Recovering(longer) && !OnTime(p) {
      var j :| 0 <= j < |longer| && OnTime(longer[j]) && forall m :: j < m < |longer| ==> SaysNothing(longer[m]);
      assert OnTime(accepted[j]) && SaysNothing(longer[|accepted|]);
      assert forall m :: j < m < |accepted| ==> accepted[m] == longer[m];
    }
    if SaysNothing(p) && Recovering(accepted) {
      var j :| 0 <= j < |accepted| && OnTime(accepted[j]) && forall m :: j < m < |accepted| ==> SaysNothing(accepted[m]);
      assert OnTime(longer[j]);
    }
  }

  lemma JustMissedMoves(accepted: seq<HealthProjection>, p: HealthProjection)
    ensures JustMissed(accepted + [p]) <==>
              || (p.missedIntervals == 1 && p.kind != ClockDiscontinuity)
              || ((SaysNothing(p) || p.kind == ClockDiscontinuity) && JustMissed(accepted))
  {
    var longer := accepted + [p];
    if JustMissed(longer) && !(p.missedIntervals == 1 && p.kind != ClockDiscontinuity) {
      var j :| 0 <= j < |longer| && longer[j].missedIntervals == 1 && longer[j].kind != ClockDiscontinuity
        && forall m :: j < m < |longer| ==> SaysNothing(longer[m]) || longer[m].kind == ClockDiscontinuity;
      assert longer[|accepted|] == p && accepted[j] == longer[j];
      assert forall m :: j < m < |accepted| ==> accepted[m] == longer[m];
    }
    if p.missedIntervals == 1 && p.kind != ClockDiscontinuity {
      assert longer[|accepted|].missedIntervals == 1;
    }
    if (SaysNothing(p) || p.kind == ClockDiscontinuity) && JustMissed(accepted) {
      var j :| 0 <= j < |accepted| && accepted[j].missedIntervals == 1 && accepted[j].kind != ClockDiscontinuity
        && forall m :: j < m < |accepted| ==> SaysNothing(accepted[m]) || accepted[m].kind == ClockDiscontinuity;
      assert longer[j].missedIntervals == 1 && longer[j] == accepted[j];
    }
  }

  /** One observation moves the phase as it moves its meaning. */
  lemma PhaseMoves(state: GapState, p: HealthProjection, accepted: seq<HealthProjection>)
    requires state.Valid() && GapObservationOf(p).Valid() && PhaseMeans(state.phase, accepted)
    requires state.lastSequence.Some? ==> state.lastSequence.value < p.sequence
    ensures PhaseMeans(EvaluateSamplingGap(state, GapObservationOf(p)).state.phase, accepted + [p])
  {
    hide InGap, Recovering, JustMissed;
    RecoveringMoves(accepted, p);
    JustMissedMoves(accepted, p);
    if OpensGap(p) {
      GapOpens(accepted, p);
    } else if OnTime(p) && Recovering(accepted) {
      GapEnds(accepted, p);
    } else if InGap(accepted) {
      GapGoesOn(accepted, p);
    } else {
      NoGapWithoutOpening(accepted, p);
    }
  }

  // ---------- The gap over whole runs ----------

  /** The largest number of intervals that an observation reported missed. */
  function LargestMiss(accepted: seq<HealthProjection>): int {
    if accepted == [] then 0
    else
      var n := |accepted| - 1;
      var before := LargestMiss(accepted[..n]);
      if Misses(accepted[n]) then Max(before, Saturated(accepted[n].missedIntervals)) else before
  }

  ghost predicate GapAgrees(run: Run) {
    && HasEveryScope(run.db.evaluation)
    && PhaseMeans(run.db.evaluation[Sampling].gapPhase, run.accepted)
    && run.db.evaluation[Sampling].health.count == LargestMiss(run.accepted)
    && Shows(run.db.alerts, Sampling, SamplingGapAlert, GapWatched(run.accepted))
  }

  lemma LargestMoves(state: GapState, p: HealthProjection, accepted: seq<HealthProjection>)
    requires state.Valid() && GapObservationOf(p).Valid() && state.largestMiss == LargestMiss(accepted)
    requires state.lastSequence.Some? ==> state.lastSequence.value < p.sequence
    ensures EvaluateSamplingGap(state, GapObservationOf(p)).state.largestMiss == LargestMiss(accepted + [p])
  {
    assert (accepted + [p])[..|accepted|] == accepted;
  }

  /** The signal for the gap alert is the phase's. */
  lemma GapFits(
    archived: Alerts, after: Alerts, d: Decisions, healthPlans: seq<AlertPlan>, gapPlans: seq<AlertPlan>, p: HealthProjection)
    requires Accounted(archived, after, d, healthPlans, gapPlans, p)
    ensures var signal :=
              if GapConfirmed(d.gap, p) then Confirmed else if d.gap.event == GapRecovered then Healed else Quiet;
            SignalFits(archived, d, Sampling, SamplingGapAlert, signal, p.recordedAt)
  {
    forall i | 0 <= i < |d.plans| && Target(d.plans[i]).0 == Sampling
      ensures if d.plans[i].transition.event == Some(RecoveredEvent) then d.gap.event == GapRecovered else GapConfirmed(d.gap, p)
    {
      PlanOrigin(archived, after, d, healthPlans, gapPlans, p, i);
    }
    assert forall i :: 0 <= i < |gapPlans| ==> d.plans[|healthPlans| + i] == gapPlans[i];
    hide Raises, Heals, VerdictsAnswered, GapConfirmed, Explained, Done, PlanReady, AllReady;
    if GapConfirmed(d.gap, p) {
      var i :| 0 <= i < |gapPlans| && Raises(archived, gapPlans[i], Sampling, SamplingGapAlert, p.recordedAt);
      assert Raises(archived, d.plans[|healthPlans| + i], Sampling, SamplingGapAlert, p.recordedAt);
    } else if d.gap.event == GapRecovered {
      forall id | id in ActiveIds(archived, Sampling, SamplingGapAlert)
        ensures exists i :: 0 <= i < |d.plans| && Heals(archived, d.plans[i], id, p.recordedAt)
      {
        var i :| 0 <= i < |gapPlans| && Heals(archived, gapPlans[i], id, p.recordedAt);
        assert Heals(archived, d.plans[|healthPlans| + i], id, p.recordedAt);
      }
    }
  }

  function GapSignal(before: bool, after: bool, p: HealthProjection): Signal {
    if after && Misses(p) then Confirmed else if before && !after then Healed else Quiet
  }

  lemma GapWatchMoves(accepted: seq<HealthProjection>, p: HealthProjection)
    ensures GapWatched(accepted + [p]) ==
              Next(GapWatched(accepted), GapSignal(InGap(accepted), InGap(accepted + [p]), p), p.recordedAt)
  {
    hide InGap, Next, Misses;
    assert (accepted + [p])[..|accepted|] == accepted;
  }

  /** What the gap machine decides in a step, in terms of the observations. */
  lemma GapDecided(hash: Hash, db: Db, p: HealthProjection, d: Decisions, accepted: seq<HealthProjection>)
    requires WellFormed(p) && HasEveryScope(db.evaluation) && Decide(hash, db, p) == Success(d) && IsNew(db, p)
    requires PhaseMeans(db.evaluation[Sampling].gapPhase, accepted) && db.evaluation[Sampling].health.count == LargestMiss(accepted)
    ensures PhaseMeans(d.gap.state.phase, accepted + [p]) && d.gap.state.largestMiss == LargestMiss(accepted + [p])
    ensures GapSignal(InGap(accepted), InGap(accepted + [p]), p) ==
              if GapConfirmed(d.gap, p) then Confirmed else if d.gap.event == GapRecovered then Healed else Quiet
  {
    DecisionParts(hash, db, p, d);
    hide Decide, EvaluateScopes, PlanScopes, PlanGap, PhaseMeans, LargestMiss, InGap;
    var state := GapStateOf(db);
    PhaseMoves(state, p, accepted);
    LargestMoves(state, p, accepted);
    GapStartsAndEnds(state, GapObservationOf(p));
    MissLeavesActive(state, p);
    PhaseOfGap(state.phase, accepted);
    PhaseOfGap(d.gap.state.phase, accepted + [p]);
  }

  lemma PhaseOfGap(phase: SamplingGapPhase, accepted: seq<HealthProjection>)
    requires PhaseMeans(phase, accepted)
    ensures GapUnderWay(phase) <==> InGap(accepted)
  {
  }

  lemma MissLeavesActive(state: GapState, p: HealthProjection)
    requires state.Valid() && GapObservationOf(p).Valid()
    requires state.lastSequence.Some? ==> state.lastSequence.value < p.sequence
    ensures var t := EvaluateSamplingGap(state, GapObservationOf(p));
            Misses(p) ==> (GapUnderWay(t.state.phase) <==> t.state.phase == Active)
  {
  }

  lemma GapStepAgrees(hash: Hash, operations: seq<Operation>, p: HealthProjection)
    requires AcceptsNew(hash, OperateAll(hash, operations).db, p) && GapAgrees(OperateAll(hash, operations))
    ensures GapAgrees(Run(Ingest(hash, OperateAll(hash, operations).db, p).db, OperateAll(hash, operations).accepted + [p]))
  {
    hide OperateAll, Accounted, Ingest, Decide, PersistPlans, Plannable, ValidProjection, WellFormed, ArchiveEligible, Recorded,
      WriteCheckpoint, Sound, Settled, SampleReference, PhaseMeans, LargestMiss, InGap, Shows, Next, AlertsOk, OnlyArchives, AcceptsNew,
      HasEveryScope, GapConfirmed, SignalFits, GapSignal, GapWatched, SameApartFromAlerts;
    var run := OperateAll(hash, operations);
    var s, healthPlans, gapPlans := AccountForStep(hash, operations, p);
    StepWritesVerdict(hash, run.db, p, s, Sampling);
    StepWritesLargest(hash, run.db, p, s);
    NewToArchived(run.db, p, s);
    GapDecided(hash, s.archived, p, s.decisions, run.accepted);
    GapFits(s.archived.alerts, s.final.alerts, s.decisions, healthPlans, gapPlans, p);
    AlertsOfStep(hash, run.db, p, s);
    PairMoves(
      run.db.alerts, s.archived.alerts, s.final.alerts, s.decisions, healthPlans, gapPlans, p, Sampling, SamplingGapAlert,
      GapSignal(InGap(run.accepted), InGap(run.accepted + [p]), p), GapWatched(run.accepted));
    GapWatchMoves(run.accepted, p);
  }

  lemma NewToArchived(db: Db, p: HealthProjection, s: Step)
    requires IsTimestamp(p.recordedAt) && ArchiveEligible(db, p.recordedAt) == Success(s.archived) && IsNew(db, p)
    ensures IsNew(s.archived, p) && s.archived.evaluation == db.evaluation
  {
    hide ArchiveEligible;
  }

  lemma StepWritesLargest(hash: Hash, db: Db, p: HealthProjection, s: Step)
    requires StepOf(hash, db, p, s)
    ensures WellFormed(p) && IsTimestamp(p.recordedAt)
    ensures HasEveryScope(s.final.evaluation) && s.final.evaluation[Sampling].health.count == s.decisions.gap.state.largestMiss
  {
    hide ValidProjection, IsNew, Sound, ArchiveEligible, Decide, PersistPlans, WriteCheckpoint, SampleReference, Settled, Plannable,
      HasEveryScope, WorstStatus;
    VerdictParts(hash, db, p, s);
    StagesKeepEvaluation(db, p, s);
    RecordedRows(s.archived, p, s.decisions, Sampling);
  }

  lemma GapRefusedAgrees(hash: Hash, operations: seq<Operation>, p: HealthProjection)
    requires !AcceptsNew(hash, OperateAll(hash, operations).db, p)
    ensures Submit(hash, OperateAll(hash, operations), p) == OperateAll(hash, operations)
  {
    hide *;
    OperationsKeepSound(hash, operations);
    RefusedChangesNothing(hash, OperateAll(hash, operations), p);
  }

  lemma GapCleanupAgrees(hash: Hash, operations: seq<Operation>, cutoff: int)
    requires GapAgrees(OperateAll(hash, operations))
    ensures GapAgrees(Operate(hash, OperateAll(hash, operations), CleanUp(cutoff)))
  {
    hide PhaseMeans, LargestMiss, GapWatched, Shows, Operate, Sound, TracksAccepted, HasEveryScope;
    var run := OperateAll(hash, operations);
    OperationsKeepSound(hash, operations);
    CleanupKeepsStates(hash, run, cutoff);
    CleanupShows(hash, run, cutoff, Sampling, SamplingGapAlert, GapWatched(run.accepted));
  }

  lemma NoGapYet()
    ensures GapAgrees(Run(EMPTY_DB, []))
  {
  }

  /**
   * After any mix of submissions and cleanups, the stored phase says whether the accepted observations are in
   * a gap, the largest miss is stored, and the sampling alert that is not archived is that of the machine.
   */
  lemma {:induction false} GapAlertsFollowMachine(hash: Hash, operations: seq<Operation>)
    ensures GapAgrees(OperateAll(hash, operations))
  {
    hide GapAgrees, Operate, AcceptsNew;
    if operations == [] {
      NoGapYet();
    } else {
      var n := |operations| - 1;
      GapAlertsFollowMachine(hash, operations[..n]);
      match operations[n] {
        case SubmitOne(p) =>
          SubmissionIsOperation(hash, OperateAll(hash, operations[..n]), p);
          if AcceptsNew(hash, OperateAll(hash, operations[..n]).db, p) {
            GapStepAgrees(hash, operations[..n], p);
            AcceptedGrows(hash, OperateAll(hash, operations[..n]), p);
          } else {
            GapRefusedAgrees(hash, operations[..n], p);
          }
        case CleanUp(cutoff) => GapCleanupAgrees(hash, operations[..n], cutoff);
      }
    }
  }

  lemma SubmissionIsOperation(hash: Hash, run: Run, p: HealthProjection)
    ensures Operate(hash, run, SubmitOne(p)) == Submit(hash, run, p)
  {
    hide Submit;
  }

  /** Two missed intervals leave a sampling alert that is not archived, whatever came before. */
  lemma MissesRaiseGapAlert(hash: Hash, operations: seq<Operation>, p: HealthProjection)
    requires AcceptsNew(hash, OperateAll(hash, operations).db, p)
    requires p.kind != ClockDiscontinuity && p.missedIntervals >= 2
    ensures var after := OperateAll(hash, operations + [SubmitOne(p)]).db.alerts;
            exists id :: id in after && OfPair(after[id], Sampling, SamplingGapAlert) && Live(after[id])
  {
    hide OperateAll, AcceptsNew, InGap, PhaseMeans, LargestMiss, GapWatched, Next;
    var run := OperateAll(hash, operations);
    SubmissionAppends(hash, operations, p);
    AcceptedGrows(hash, run, p);
    GapAlertsFollowMachine(hash, operations + [SubmitOne(p)]);
    GapOpens(run.accepted, p);
    GapWatchMoves(run.accepted, p);
    ConfirmedIsRaised(GapWatched(run.accepted), p.recordedAt);
  }

  lemma ConfirmedIsRaised(t: Tracked, now: int)
    ensures Next(t, Confirmed, now) != NotRaised
  {
  }
}
