/**
 * A run whose last alert the reader refuses: WLED, HyperHDR, the capture device and the Raspberry Pi
 * are unavailable twice, the clock goes back, and they are healthy twice.
 */
module EarlyRecovery {
  import opened Wrappers
  import opened HealthModels
  import opened ReasonCodes
  import opened Projection
  import opened Evaluation
  import opened Lifecycle
  import opened HistoryTables
  import opened Ingestion
  import opened AlertTable
  import opened AlertPlans
  import opened AlertPlanning
  import opened PlanEffects
  import opened IngestionSafety
  import opened IngestionRuns
  import opened Debouncing
  import opened Queries
  import opened MixedRuns
  import opened AlertGenerations
  import opened ReaderAgreement
  import opened Reports

  // ---------- The times that a step writes ----------

  /** Old alerts keep their opening time, and new ones open now. */
  ghost predicate OpensNow(before: Alerts, after: Alerts, now: int) {
    && (forall id :: id in before ==> id in after && after[id].openedAt == before[id].openedAt)
    && (forall id :: id in after && id !in before ==> after[id].openedAt == now)
  }

  lemma PlanOpensNow(db: Db, plan: AlertPlan, now: int, sample: Option<int>)
    requires PersistPlan(db, plan, now, sample).Success?
    ensures OpensNow(db.alerts, PersistPlan(db, plan, now, sample).value.alerts, now)
  {
    hide AlertConstraints, ActiveIds;
  }

  lemma {:induction false} PlansOpenNow(db: Db, plans: seq<AlertPlan>, now: int, sample: Option<int>)
    requires PersistPlans(db, plans, now, sample).Success?
    ensures OpensNow(db.alerts, PersistPlans(db, plans, now, sample).value.alerts, now)
    decreases |plans|
  {
    hide PersistPlan;
    if plans != [] {
      PlanOpensNow(db, plans[0], now, sample);
      PlansOpenNow(PersistPlan(db, plans[0], now, sample).value, plans[1..], now, sample);
    }
  }

  /** What one accepted step does to opening times, and to the times at which active alerts recover. */
  ghost predicate DatedBy(before: Alerts, after: Alerts, now: int) {
    && OpensNow(before, after, now)
    && (forall id :: id in after && id !in before ==> after[id].state.lifecycle == Open)
    && (forall id :: id in before ==> id in after && PairOf(after[id]) == PairOf(before[id]))
    && (forall id :: id in before && IsActive(before[id].state.lifecycle) && !IsActive(after[id].state.lifecycle) ==>
          after[id].state.recoveredAt == Some(now))
  }

  lemma StepIsDated(hash: Hash, db: Db, p: HealthProjection)
    requires Sound(hash, db) && AcceptsNew(hash, db, p)
    ensures DatedBy(db.alerts, Ingest(hash, db, p).db.alerts, p.recordedAt)
  {
    hide Sound, AcceptsNew, Ingest, ValidProjection, WellFormed, Settled, ArchiveEligible, Decide, PersistPlans, AllReady;
    hide Recorded, SampleReference, Explained, Done, PlanReady, IsNew, Plannable, OnlyArchives, OpensNow, DatedBy;
    var s := AcceptedStep(hash, db, p);
    StepActsOnVerdicts(hash, db, p, s);
    PlansOpenNow(s.recorded, s.decisions.plans, p.recordedAt, s.sample);
    RecordingKeepsAlerts(s.archived, p, s.decisions);
    AlertsAreDated(db.alerts, s.archived.alerts, s.alerted.alerts, s.decisions, p.recordedAt);
  }

  lemma RecordingKeepsAlerts(db: Db, p: HealthProjection, d: Decisions)
    ensures Recorded(db, p, d).alerts == db.alerts
  {
  }

  lemma AlertsAreDated(before: Alerts, archived: Alerts, after: Alerts, d: Decisions, now: int)
    requires StepAlerts(before, archived, after, d, now) && OpensNow(archived, after, now)
    ensures DatedBy(before, after, now)
  {
    hide PlanReady, Done;
    forall id | id in after
      ensures if id in before then PairOf(after[id]) == PairOf(before[id]) else after[id].state.lifecycle == Open
      ensures id in before && IsActive(before[id].state.lifecycle) && !IsActive(after[id].state.lifecycle) ==>
                after[id].state.recoveredAt == Some(now)
    {
      assert Explained(archived, after, d.plans, id);
      if id !in archived {
        var i :| 0 <= i < |d.plans| && Adds(d.plans[i], after[id].state);
        AddedOpen(archived, d.plans[i], after[id].state, now);
      } else if after[id] != archived[id] {
        var i :| 0 <= i < |d.plans| && Takes(d.plans[i], id, after[id].state);
        TakenNow(archived, d.plans[i], id, after[id].state, now);
      }
    }
  }

  lemma AddedOpen(archived: Alerts, plan: AlertPlan, state: AlertState, now: int)
    requires PlanReady(archived, plan, now) && Adds(plan, state)
    ensures state.lifecycle == Open
  {
  }

  lemma TakenNow(archived: Alerts, plan: AlertPlan, id: int, state: AlertState, now: int)
    requires PlanReady(archived, plan, now) && Takes(plan, id, state)
    ensures id in archived && (state.scope, state.kind) == PairOf(archived[id])
    ensures IsActive(archived[id].state.lifecycle) && !IsActive(state.lifecycle) ==> state.recoveredAt == Some(now)
  {
  }

  // ---------- Submissions that are all accepted ----------

  function Submissions(story: seq<HealthProjection>): seq<Operation> {
    if story == [] then []
    else Submissions(story[..|story| - 1]) + [SubmitOne(story[|story| - 1])]
  }

  /** The submission of the first observations of a story. */
  function Prefix(story: seq<HealthProjection>, n: nat): seq<Operation>
    requires n <= |story|
  {
    Submissions(story[..n])
  }

  lemma PrefixGrows(story: seq<HealthProjection>, n: nat)
    requires n < |story|
    ensures Prefix(story, n + 1) == Prefix(story, n) + [SubmitOne(story[n])]
    ensures story[..n + 1] == story[..n] + [story[n]]
  {
    assert story[..n + 1][..n] == story[..n];
  }

  lemma NextIsAccepted(hash: Hash, operations: seq<Operation>, accepted: seq<HealthProjection>, p: HealthProjection)
    requires OperateAll(hash, operations).accepted == accepted && |accepted| < MAX_BOUNDED_COUNTER
    requires accepted != [] ==> accepted[|accepted| - 1].sequence < p.sequence
    requires ValidProjection(hash, p) && !DisabledButHealthy(p)
    ensures AcceptsNew(hash, OperateAll(hash, operations).db, p)
    ensures OperateAll(hash, operations + [SubmitOne(p)]).accepted == accepted + [p]
    ensures OperateAll(hash, operations + [SubmitOne(p)]).db == Ingest(hash, OperateAll(hash, operations).db, p).db
    ensures Sound(hash, OperateAll(hash, operations).db)
  {
    hide OperateAll, ValidProjection, DisabledButHealthy, Ingest, Sound, Increasing;
    OperationsKeepSound(hash, operations);
    AcceptedBeforeExhaustion(hash, operations, p);
    SubmissionAppends(hash, operations, p);
  }

  // ---------- The observations ----------

  function ComponentWith(component: ComponentName, status: Status): ComponentProjection {
    ComponentProjection(component, status, [Reason(component, if status == Healthy then "healthy" else "collector_failed")], 0, 0, None)
  }

  /** All components have this status. */
  function Uniform(status: Status, at: int): Report {
    Report(
      status, at, 0,
      [ComponentWith(Wled, status), ComponentWith(HyperHdr, status), ComponentWith(Capture, status),
       ComponentWith(RaspberryPi, status)])
  }

  lemma {:induction false} OneIsNamed(components: seq<ComponentProjection>, name: ComponentName, i: nat)
    requires i <= |components|
    requires forall k :: 0 <= k < |components| ==> (components[k].component == name <==> k == i)
    ensures Named(components, name) == if i < |components| then [components[i]] else []
    decreases |components|
  {
    if components != [] {
      OneIsNamed(components[1..], name, if i == 0 then |components| - 1 else i - 1);
    }
  }

  lemma UniformIsOrdered(status: Status, at: int)
    ensures Ordered(Uniform(status, at).components) == Some(Uniform(status, at).components)
  {
    hide Named, ComponentWith;
    var c := Uniform(status, at).components;
    UniformNames(status, at);
    OneIsNamed(c, Wled, 0);
    OneIsNamed(c, HyperHdr, 1);
    OneIsNamed(c, Capture, 2);
    OneIsNamed(c, RaspberryPi, 3);
  }

  lemma UniformNames(status: Status, at: int)
    ensures |Uniform(status, at).components| == COMPONENT_COUNT
    ensures forall i :: 0 <= i < COMPONENT_COUNT ==> Uniform(status, at).components[i].component == ComponentAt(i)
  {
  }

  lemma PlainComponent(component: ComponentName, status: Status)
    ensures var c := ComponentWith(component, status);
            c.component == component && c.status == status && c.Valid() && !c.IntentionallyDisabled()
  {
    hide IsCode;
    CommonCodes(component);
    assert |"healthy"| == 7 && |"collector_failed"| == 16 && |"disabled"| == 8;
  }

  lemma UniformComponents(status: Status, at: int)
    ensures Uniform(status, at).Normalized()
    ensures forall i :: 0 <= i < |Uniform(status, at).components| ==>
              && Uniform(status, at).components[i].status == status
              && !Uniform(status, at).components[i].IntentionallyDisabled()
  {
    hide ComponentWith, ComponentProjection.Valid, ComponentProjection.IntentionallyDisabled;
    PlainComponent(Wled, status);
    PlainComponent(HyperHdr, status);
    PlainComponent(Capture, status);
    PlainComponent(RaspberryPi, status);
  }

  /** What the scheduler submits of such a report. */
  function Observed(sha: string -> Digest, sequence: int, at: int, status: Status, kind: SampleKind): Option<HealthProjection> {
    ProjectHealthReport(sha, Uniform(status, at), sequence, at, kind, 0)
  }

  lemma UniformIsProjected(sha: string -> Digest, sequence: int, at: int, status: Status, kind: SampleKind)
    requires DigestsAreFull(sha) && 0 <= sequence <= MAX_OBSERVATION_SEQUENCE && IsTimestamp(at)
    ensures var p := Observed(sha, sequence, at, status, kind);
            p.Some? && p.value.overall == status && p.value.components == Uniform(status, at).components
  {
    hide Ordered, CanonicalText, ComponentProjection.IntentionallyDisabled, ComponentProjection.Valid, WorstStatus, ComponentWith;
    UniformIsOrdered(status, at);
    UniformNames(status, at);
    UniformComponents(status, at);
    SameStatusIsWorst(Uniform(status, at).components, status);
  }

  lemma SameStatusIsWorst(components: seq<ComponentProjection>, status: Status)
    requires components != [] && forall i :: 0 <= i < |components| ==> components[i].status == status
    ensures WorstStatus(components) == status
  {
    hide WorstStatus;
  }

  lemma UniformScope(p: HealthProjection, at: int)
    requires WellFormed(p) && p.components == Uniform(p.overall, at).components
    ensures ScopeStatus(p, Overall) == p.overall && !ScopeDisabled(p, Overall) && !DisabledButHealthy(p)
  {
    hide WellFormed, Uniform, ComponentProjection.IntentionallyDisabled;
    UniformComponents(p.overall, at);
  }

  lemma ObservedIsValid(sha: string -> Digest, sequence: int, at: int, status: Status, kind: SampleKind)
    requires DigestsAreFull(sha) && 0 <= sequence <= MAX_OBSERVATION_SEQUENCE && IsTimestamp(at)
    ensures Observed(sha, sequence, at, status, kind).Some?
    ensures ValidProjection(CanonicalHash(sha), Observed(sha, sequence, at, status, kind).value)
    ensures !DisabledButHealthy(Observed(sha, sequence, at, status, kind).value)
    ensures WellFormed(Observed(sha, sequence, at, status, kind).value)
    ensures Observed(sha, sequence, at, status, kind).value.sequence == sequence
    ensures Observed(sha, sequence, at, status, kind).value.recordedAt == at
    ensures ScopeStatus(Observed(sha, sequence, at, status, kind).value, Overall) == status
    ensures !ScopeDisabled(Observed(sha, sequence, at, status, kind).value, Overall)
  {
    hide ProjectHealthReport, DigestsAreFull, WellFormed, CanonicalHash, Uniform, DisabledButHealthy, ScopeStatus, ScopeDisabled;
    UniformIsProjected(sha, sequence, at, status, kind);
    ProjectedIsValid(sha, Uniform(status, at), sequence, at, kind, 0);
    UniformScope(Observed(sha, sequence, at, status, kind).value, at);
  }

  const LATER: int := 10
  const EARLIER: int := 5

  lemma StoryIsProjected(sha: string -> Digest)
    requires DigestsAreFull(sha)
    ensures Observed(sha, 1, LATER, Unavailable, StartupGap).Some? && Observed(sha, 2, LATER, Unavailable, Heartbeat).Some?
    ensures Observed(sha, 3, EARLIER, Healthy, ClockDiscontinuity).Some? && Observed(sha, 4, EARLIER, Healthy, Heartbeat).Some?
  {
    hide Observed, ValidProjection, DisabledButHealthy, WellFormed, ScopeStatus, ScopeDisabled, DigestsAreFull;
    ObservedIsValid(sha, 1, LATER, Unavailable, StartupGap);
    ObservedIsValid(sha, 2, LATER, Unavailable, Heartbeat);
    ObservedIsValid(sha, 3, EARLIER, Healthy, ClockDiscontinuity);
    ObservedIsValid(sha, 4, EARLIER, Healthy, Heartbeat);
  }

  /** Unavailable twice, and then, by a clock that went back, healthy twice. */
  ghost predicate IsStory(sha: string -> Digest, told: seq<HealthProjection>) {
    && |told| == 4
    && Observed(sha, 1, LATER, Unavailable, StartupGap) == Some(told[0])
    && Observed(sha, 2, LATER, Unavailable, Heartbeat) == Some(told[1])
    && Observed(sha, 3, EARLIER, Healthy, ClockDiscontinuity) == Some(told[2])
    && Observed(sha, 4, EARLIER, Healthy, Heartbeat) == Some(told[3])
  }

  lemma StoryParts(sha: string -> Digest, story: seq<HealthProjection>, n: nat)
    requires DigestsAreFull(sha) && IsStory(sha, story) && n < 4
    ensures ValidProjection(CanonicalHash(sha), story[n]) && !DisabledButHealthy(story[n]) && WellFormed(story[n])
    ensures story[n].sequence == n + 1
    ensures story[n].recordedAt == if n < 2 then LATER else EARLIER
    ensures ScopeStatus(story[n], Overall) == (if n < 2 then Unavailable else Healthy) && !ScopeDisabled(story[n], Overall)
  {
    hide Observed, ValidProjection, DisabledButHealthy, WellFormed, ScopeStatus, ScopeDisabled, CanonicalHash, DigestsAreFull;
    ObservedIsValid(sha, 1, LATER, Unavailable, StartupGap);
    ObservedIsValid(sha, 2, LATER, Unavailable, Heartbeat);
    ObservedIsValid(sha, 3, EARLIER, Healthy, ClockDiscontinuity);
    ObservedIsValid(sha, 4, EARLIER, Healthy, Heartbeat);
  }

  /** The next observation of the story is accepted, and what that means for the inputs of scope overall. */
  lemma StoryContinues(sha: string -> Digest, story: seq<HealthProjection>, n: nat)
    requires DigestsAreFull(sha) && IsStory(sha, story) && n < 4 == |story|
    requires OperateAll(CanonicalHash(sha), Prefix(story, n)).accepted == story[..n]
    ensures Prefix(story, n + 1) == Prefix(story, n) + [SubmitOne(story[n])]
    ensures AcceptsNew(CanonicalHash(sha), OperateAll(CanonicalHash(sha), Prefix(story, n)).db, story[n])
    ensures OperateAll(CanonicalHash(sha), Prefix(story, n + 1)).accepted == story[..n + 1]
    ensures DatedBy(
              OperateAll(CanonicalHash(sha), Prefix(story, n)).db.alerts,
              OperateAll(CanonicalHash(sha), Prefix(story, n + 1)).db.alerts,
              if n < 2 then LATER else EARLIER)
    ensures ScopeInputs(CanonicalHash(sha), Prefix(story, n + 1), Overall) ==
              ScopeInputs(CanonicalHash(sha), Prefix(story, n), Overall)
              + [HealthInput(
                   if n < 2 then Unavailable else Healthy, false,
                   AlertActive(OperateAll(CanonicalHash(sha), Prefix(story, n)).db.alerts, Overall))]
  {
    hide OperateAll, Ingest, ScopeInputs, AcceptsNew, Sound, DigestsAreFull, IsStory, ValidProjection, DisabledButHealthy,
      DatedBy, WellFormed, ScopeStatus, ScopeDisabled, CanonicalHash, AlertActive, Prefix;
    var hash, told := CanonicalHash(sha), Prefix(story, n);
    StoryParts(sha, story, n);
    if n > 0 {
      StoryParts(sha, story, n - 1);
    }
    PrefixGrows(story, n);
    NextIsAccepted(hash, told, story[..n], story[n]);
    InputsAppend(hash, told, story[n], Overall);
    StepIsDated(hash, OperateAll(hash, told).db, story[n]);
  }

  // ---------- The story ----------

  /** The first observations of the story, all of them accepted, have come to these inputs of scope overall. */
  ghost predicate Told(hash: Hash, story: seq<HealthProjection>, n: nat, inputs: seq<HealthInput>)
    requires n <= |story|
  {
    OperateAll(hash, Prefix(story, n)).accepted == story[..n] && ScopeInputs(hash, Prefix(story, n), Overall) == inputs
  }

  /** The alert of scope overall is active, opened late. */
  ghost predicate OpenedLater(alerts: Alerts, id: int) {
    id in alerts && IsActiveHealth(alerts[id], Overall) && alerts[id].openedAt == LATER
  }

  lemma NothingTold(hash: Hash, story: seq<HealthProjection>)
    ensures Told(hash, story, 0, [])
    ensures OperateAll(hash, Prefix(story, 0)).db.alerts == map[]
  {
  }

  /** One observation opens no alert of scope overall. */
  lemma OnceOpensNothing(sha: string -> Digest, story: seq<HealthProjection>) returns (a: bool)
    requires DigestsAreFull(sha) && |story| == 4 && IsStory(sha, story)
    ensures Told(CanonicalHash(sha), story, 1, [HealthInput(Unavailable, false, a)])
    ensures var alerts := OperateAll(CanonicalHash(sha), Prefix(story, 1)).db.alerts;
            forall id :: id in alerts ==> alerts[id].state.scope != Overall
  {
    hide IsStory, DigestsAreFull, OperateAll, ScopeInputs, CanonicalHash, AcceptsNew, AlertActive, DatedBy, Prefix;
    var hash := CanonicalHash(sha);
    a := AlertActive(OperateAll(hash, Prefix(story, 0)).db.alerts, Overall);
    NothingTold(hash, story);
    StoryContinues(sha, story, 0);
    var alerts := OperateAll(hash, Prefix(story, 1)).db.alerts;
    forall id | id in alerts
      ensures alerts[id].state.scope != Overall
    {
      if alerts[id].state.scope == Overall {
        AlertOpensOnlyAtThreshold(hash, Prefix(story, 0), story[0], id);
      }
    }
  }

  /** The second one opens it. */
  lemma TwiceOpens(sha: string -> Digest, story: seq<HealthProjection>) returns (a: bool, b: bool, id: int)
    requires DigestsAreFull(sha) && |story| == 4 && IsStory(sha, story)
    ensures Told(CanonicalHash(sha), story, 2, [HealthInput(Unavailable, false, a), HealthInput(Unavailable, false, b)])
    ensures OpenedLater(OperateAll(CanonicalHash(sha), Prefix(story, 2)).db.alerts, id)
  {
    hide IsStory, DigestsAreFull, OperateAll, ScopeInputs, CanonicalHash, AcceptsNew, AlertActive, IsActive, Prefix;
    var hash := CanonicalHash(sha);
    a := OnceOpensNothing(sha, story);
    b := AlertActive(OperateAll(hash, Prefix(story, 1)).db.alerts, Overall);
    StoryContinues(sha, story, 1);
    LastingConditionHasAlert(hash, Prefix(story, 1), story[1], Overall, Unavailable);
    var alerts := OperateAll(hash, Prefix(story, 2)).db.alerts;
    id :| id in alerts && OfPair(alerts[id], Overall, UnavailableAlert) && Live(alerts[id]);
    NewIsOpenedLater(OperateAll(hash, Prefix(story, 1)).db.alerts, alerts, id);
  }

  lemma NewIsOpenedLater(before: Alerts, after: Alerts, id: int)
    requires DatedBy(before, after, LATER) && id in after && id !in before && OfPair(after[id], Overall, UnavailableAlert)
    ensures OpenedLater(after, id)
  {
  }

  lemma ActiveForNow(alerts: Alerts, id: int)
    requires OpenedLater(alerts, id)
    ensures AlertActive(alerts, Overall)
  {
  }

  /** One healthy observation is not enough for a recovery. */
  lemma OnceHealthyKeepsIt(sha: string -> Digest, story: seq<HealthProjection>) returns (a: bool, b: bool, id: int)
    requires DigestsAreFull(sha) && |story| == 4 && IsStory(sha, story)
    ensures Told(
              CanonicalHash(sha), story, 3,
              [HealthInput(Unavailable, false, a), HealthInput(Unavailable, false, b), HealthInput(Healthy, false, true)])
    ensures OpenedLater(OperateAll(CanonicalHash(sha), Prefix(story, 3)).db.alerts, id)
  {
    hide IsStory, DigestsAreFull, OperateAll, ScopeInputs, CanonicalHash, AcceptsNew, AlertActive, IsActive, Prefix;
    var hash := CanonicalHash(sha);
    a, b, id := TwiceOpens(sha, story);
    ActiveForNow(OperateAll(hash, Prefix(story, 2)).db.alerts, id);
    StoryContinues(sha, story, 2);
    var after := OperateAll(hash, Prefix(story, 3)).db.alerts;
    StillOpenedLater(OperateAll(hash, Prefix(story, 2)).db.alerts, after, id);
    OneHealthyDoesNot(ScopeInputs(hash, Prefix(story, 3), Overall));
    if !IsActive(after[id].state.lifecycle) {
      HealthRecoversTogether(hash, Prefix(story, 2), story[2], id);
    }
  }

  lemma OneHealthyDoesNot(inputs: seq<HealthInput>)
    requires |inputs| == 3 && inputs[1].status == Unavailable
    ensures !LastHealed(inputs, 2)
  {
  }

  lemma StillOpenedLater(before: Alerts, after: Alerts, id: int)
    requires DatedBy(before, after, EARLIER) && OpenedLater(before, id)
    ensures id in after && after[id].openedAt == LATER
    ensures if IsActive(after[id].state.lifecycle) then OpenedLater(after, id) else after[id].state.recoveredAt == Some(EARLIER)
    ensures !IsActive(after[id].state.lifecycle) ==> !IsActiveHealth(after[id], Overall)
  {
  }

  lemma TwoHealthyRecover(inputs: seq<HealthInput>)
    requires |inputs| == 4 && ValidInputs(inputs) && inputs[1].status == Unavailable
    requires inputs[2] == inputs[3] == HealthInput(Healthy, false, true)
    ensures EventAfter(inputs) == RecoveryConfirmed
  {
    hide EventAfter;
    assert HealingRun(inputs[..3][..2]) == 0;
    assert HealingRun(inputs[..3]) == 1;
    RecoveredExactlyAtEverySecond(inputs);
  }

  lemma StoryIsRefused(sha: string -> Digest, story: seq<HealthProjection>) returns (id: int)
    requires DigestsAreFull(sha) && |story| == 4 && IsStory(sha, story)
    ensures var run := OperateAll(CanonicalHash(sha), Submissions(story));
            && run.accepted == story
            && id in run.db.alerts && !RecoveredAfterOpening(run.db.alerts[id])
            && !AlertReadable(run.db.samples.Keys, id, run.db.alerts[id])
  {
    hide IsStory, DigestsAreFull, OperateAll, ScopeInputs, CanonicalHash, AcceptsNew, AlertActive, IsActive, Submissions,
      EventAfter;
    var hash := CanonicalHash(sha);
    var a, b;
    a, b, id := OnceHealthyKeepsIt(sha, story);
    ActiveForNow(OperateAll(hash, Prefix(story, 3)).db.alerts, id);
    StoryContinues(sha, story, 3);
    assert story[..4] == story;
    var after := OperateAll(hash, Prefix(story, 4)).db.alerts;
    StillOpenedLater(OperateAll(hash, Prefix(story, 3)).db.alerts, after, id);
    TwoHealthyRecover(ScopeInputs(hash, Prefix(story, 4), Overall));
    ConfirmedRecoveryLeavesNone(hash, Prefix(story, 3), story[3], Overall);
    if IsActive(after[id].state.lifecycle) {
      ActiveForNow(after, id);
    }
  }

  /** There is such a story, whatever function on texts makes the digests. */
  lemma StoryExists(sha: string -> Digest) returns (story: seq<HealthProjection>)
    requires DigestsAreFull(sha)
    ensures |story| == 4 && IsStory(sha, story)
  {
    hide Observed, DigestsAreFull;
    StoryIsProjected(sha);
    story := [
      Observed(sha, 1, LATER, Unavailable, StartupGap).value, Observed(sha, 2, LATER, Unavailable, Heartbeat).value,
      Observed(sha, 3, EARLIER, Healthy, ClockDiscontinuity).value, Observed(sha, 4, EARLIER, Healthy, Heartbeat).value];
  }

  /**
   * The reader can refuse what ingestion wrote: four projected reports, all accepted, leave an alert
   * that recovered at an earlier time than it opened.
   */
  lemma ReaderCanRefuse(sha: string -> Digest) returns (story: seq<HealthProjection>, id: int)
    requires DigestsAreFull(sha)
    ensures IsStory(sha, story)
    ensures var run := OperateAll(CanonicalHash(sha), Submissions(story));
            && run.accepted == story
            && id in run.db.alerts && !RecoveredAfterOpening(run.db.alerts[id])
            && !AlertReadable(run.db.samples.Keys, id, run.db.alerts[id])
  {
    hide IsStory, DigestsAreFull, OperateAll, Submissions, AlertReadable;
    story := StoryExists(sha);
    id := StoryIsRefused(sha, story);
  }
}
