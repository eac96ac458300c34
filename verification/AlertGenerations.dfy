/** How alert generations grow over whole runs, and so how long a run can go on before they are used up. */
module AlertGenerations {
  import opened Wrappers
  import opened HealthModels
  import opened Projection
  import opened Lifecycle
  import opened HistoryTables
  import opened Ingestion
  import opened AlertPlans
  import opened AlertPlanning
  import opened PlanEffects
  import opened IngestionSafety
  import opened IngestionRuns
  import opened ExactlyOnce
  import opened Debouncing
  import opened Retention
  import opened RetentionRuns
  import opened MixedRuns

  ghost predicate GenerationsUpTo(alerts: Alerts, n: int) {
    forall id :: id in alerts ==> alerts[id].state.generation <= n
  }

  lemma PlansRaiseGenerations(archived: Alerts, after: Alerts, plans: seq<AlertPlan>, now: int, n: nat)
    requires GenerationsUpTo(archived, n)
    requires forall id :: id in after ==> Explained(archived, after, plans, id)
    requires forall i :: 0 <= i < |plans| ==> PlanReady(archived, plans[i], now) && NextGeneration(archived, plans[i])
    ensures GenerationsUpTo(after, n + 1)
  {
    hide PlanReady, NextGeneration;
    forall id | id in after
      ensures after[id].state.generation <= n + 1
    {
      assert Explained(archived, after, plans, id);
      if id !in archived {
        var i :| 0 <= i < |plans| && Adds(plans[i], after[id].state);
        AddedGeneration(archived, plans[i], after[id].state, n);
      } else if after[id] != archived[id] {
        var i :| 0 <= i < |plans| && Takes(plans[i], id, after[id].state);
        TakenGeneration(archived, plans[i], id, after[id].state, now);
      }
    }
  }

  lemma AddedGeneration(archived: Alerts, plan: AlertPlan, state: AlertState, n: nat)
    requires GenerationsUpTo(archived, n) && NextGeneration(archived, plan) && Adds(plan, state)
    ensures state.generation <= n + 1
  {
  }

  lemma TakenGeneration(archived: Alerts, plan: AlertPlan, id: int, state: AlertState, now: int)
    requires PlanReady(archived, plan, now) && Takes(plan, id, state)
    ensures id in archived && state.generation == archived[id].state.generation
  {
  }

  lemma StepRaisesGenerations(hash: Hash, db: Db, p: HealthProjection, n: nat)
    requires Sound(hash, db) && AcceptsNew(hash, db, p) && GenerationsUpTo(db.alerts, n)
    ensures GenerationsUpTo(Ingest(hash, db, p).db.alerts, n + 1)
  {
    hide Sound, AcceptsNew, Ingest, ValidProjection, WellFormed, Settled, ArchiveEligible, Decide, PersistPlans, AllReady;
    hide Recorded, SampleReference, Explained, Done, PlanReady, NextGeneration, IsNew;
    var s := AcceptedStep(hash, db, p);
    StepActsOnVerdicts(hash, db, p, s);
    PlansRaiseGenerations(s.archived.alerts, s.alerted.alerts, s.decisions.plans, p.recordedAt, n);
  }

  lemma DeletionKeepsGenerations(db: Db, action: Deletion, cutoff: int, n: int)
    requires GenerationsUpTo(db.alerts, n) && Delete(db, action, cutoff).Some?
    ensures GenerationsUpTo(Delete(db, action, cutoff).value.alerts, n)
  {
    hide EventKeys, SampleExpired, AlertExpired;
  }

  lemma {:induction false} DeletionsKeepGenerations(db: Db, actions: seq<Deletion>, cutoff: int, n: int)
    requires GenerationsUpTo(db.alerts, n) && DeleteAll(db, actions, cutoff).Some?
    ensures GenerationsUpTo(DeleteAll(db, actions, cutoff).value.alerts, n)
    decreases |actions|
  {
    hide GenerationsUpTo, Delete;
    if actions != [] {
      DeletionKeepsGenerations(db, actions[0], cutoff, n);
      DeletionsKeepGenerations(Delete(db, actions[0], cutoff).value, actions[1..], cutoff, n);
    }
  }

  lemma SubmissionRaisesGenerations(hash: Hash, run: Run, p: HealthProjection)
    requires Sound(hash, run.db) && GenerationsUpTo(run.db.alerts, |run.accepted|)
    ensures GenerationsUpTo(Submit(hash, run, p).db.alerts, |Submit(hash, run, p).accepted|)
  {
    hide Sound, Ingest, GenerationsUpTo;
    if AcceptsNew(hash, run.db, p) {
      StepRaisesGenerations(hash, run.db, p, |run.accepted|);
    } else {
      IngestionKeepsTrust(hash, run.db, p);
    }
  }

  lemma CleanupKeepsGenerations(hash: Hash, run: Run, cutoff: int, n: int)
    requires GenerationsUpTo(run.db.alerts, n)
    ensures GenerationsUpTo(Operate(hash, run, CleanUp(cutoff)).db.alerts, n)
  {
    hide GenerationsUpTo, Plan, DeleteAll;
    CleanupCompletes(run.db, cutoff);
    DeletionsKeepGenerations(run.db, Plan(run.db, cutoff), cutoff, n);
  }

  /** No alert of a run has more generations than the run has accepted observations. */
  lemma {:induction false} GenerationsAreBounded(hash: Hash, operations: seq<Operation>)
    ensures var run := OperateAll(hash, operations); GenerationsUpTo(run.db.alerts, |run.accepted|)
  {
    hide GenerationsUpTo, Submit, Cleanup, Sound, TracksAccepted;
    if operations == [] {
      NoGenerations();
    } else {
      var n := |operations| - 1;
      var before := OperateAll(hash, operations[..n]);
      GenerationsAreBounded(hash, operations[..n]);
      match operations[n] {
        case SubmitOne(p) =>
          OperationsKeepSound(hash, operations[..n]);
          SubmissionRaisesGenerations(hash, before, p);
        case CleanUp(cutoff) =>
          CleanupKeepsGenerations(hash, before, cutoff, |before.accepted|);
          CleanupAcceptsNothing(hash, before, cutoff);
      }
    }
  }

  lemma NoGenerations()
    ensures GenerationsUpTo(EMPTY_DB.alerts, 0)
  {
  }

  lemma CleanupAcceptsNothing(hash: Hash, run: Run, cutoff: int)
    ensures Operate(hash, run, CleanUp(cutoff)).accepted == run.accepted
  {
    hide Cleanup;
  }

  /**
   * So for the first 65,535 accepted observations of any run, every further one is accepted that is
   * valid, new and free of contradiction.
   */
  lemma AcceptedBeforeExhaustion(hash: Hash, operations: seq<Operation>, p: HealthProjection)
    requires |OperateAll(hash, operations).accepted| < MAX_BOUNDED_COUNTER
    ensures var db := OperateAll(hash, operations).db;
            AcceptsNew(hash, db, p) <==> ValidProjection(hash, p) && IsNew(db, p) && !DisabledButHealthy(p)
  {
    hide OperateAll, ValidProjection, IsNew, DisabledButHealthy, Sound, TracksAccepted, Ingest;
    OperationsKeepSound(hash, operations);
    GenerationsAreBounded(hash, operations);
    IngestionKeepsTrust(hash, OperateAll(hash, operations).db, p);
  }
}
