/** Runs in which observations are submitted and expired rows are cleaned up in any order. */
module MixedRuns {
  import opened Wrappers
  import opened HealthModels
  import opened Projection
  import opened HistoryTables
  import opened Ingestion
  import opened AlertTable
  import opened IngestionSafety
  import opened IngestionRuns
  import opened ExactlyOnce
  import opened Queries
  import opened Retention
  import opened RetentionRuns

  datatype Operation = SubmitOne(p: HealthProjection) | CleanUp(cutoff: int)

  /** A cleanup always runs to completion, as `CleanupCompletes` shows. */
  function Operate(hash: Hash, run: Run, operation: Operation): Run {
    match operation
    case SubmitOne(p) => Submit(hash, run, p)
    case CleanUp(cutoff) =>
      match Cleanup(run.db, cutoff)
      case None => run
      case Some(db) => Run(db, run.accepted)
  }

  function OperateAll(hash: Hash, operations: seq<Operation>): Run {
    if operations == [] then Run(EMPTY_DB, [])
    else Operate(hash, OperateAll(hash, operations[..|operations| - 1]), operations[|operations| - 1])
  }

  lemma CleanupCompletes(db: Db, cutoff: int)
    ensures Cleanup(db, cutoff).Some?
  {
    hide *;
    CleanupsWorkOff(db, cutoff, 0);
    CleanupsWorkOff(db, cutoff, 1);
    OneCleanup(db, cutoff);
  }

  lemma OneCleanup(db: Db, cutoff: int)
    ensures Cleanups(db, cutoff, 1) == Cleanup(db, cutoff)
  {
    hide Cleanup;
  }

  // ---------- A deletion keeps the database sound ----------

  lemma EvaluationForgets(evaluation: Evaluations, samples: map<int, SampleRow>, id: int)
    requires EvaluationOk(evaluation) && BaselineOk(evaluation, samples)
    ensures var after := map scope | scope in evaluation :: ForgetInEvaluation(evaluation[scope], id);
            EvaluationOk(after) && BaselineOk(after, samples - {id})
  {
    var after := map scope | scope in evaluation :: ForgetInEvaluation(evaluation[scope], id);
    assert HasEveryScope(after);
    forall scope | scope in after
      ensures Readable(scope, after[scope])
      ensures after[scope].lastSample == Baseline(after)
    {
      assert Readable(scope, evaluation[scope]) && evaluation[scope].lastSample == Baseline(evaluation);
    }
  }

  lemma AlertsForget(alerts: map<int, AlertRow>, id: int)
    requires AlertsOk(alerts)
    ensures AlertsOk(map a | a in alerts :: ForgetInAlert(alerts[a], id))
    ensures AlertsOk(alerts - {id})
  {
    var after := map a | a in alerts :: ForgetInAlert(alerts[a], id);
    forall i, j | i in after && j in after && Live(after[i]) && SamePair(after[i], after[j])
      ensures j <= i
    {
      assert Live(alerts[i]) && SamePair(alerts[i], alerts[j]);
    }
  }

  lemma DeletionKeepsSound(hash: Hash, db: Db, action: Deletion, cutoff: int)
    requires Sound(hash, db) && Delete(db, action, cutoff).Some?
    ensures Sound(hash, Delete(db, action, cutoff).value)
  {
    hide ValidProjection, LedgerOk, EvaluationOk, BaselineOk, AlertsOk, EventKeys, ForgetInAlert, ForgetInEvent, ForgetInEvaluation;
    EvaluationForgets(db.evaluation, db.samples, action.id);
    AlertsForget(db.alerts, action.id);
  }

  lemma {:induction false} DeletionsKeepSound(hash: Hash, db: Db, actions: seq<Deletion>, cutoff: int)
    requires Sound(hash, db) && DeleteAll(db, actions, cutoff).Some?
    ensures Sound(hash, DeleteAll(db, actions, cutoff).value)
    decreases |actions|
  {
    hide Sound, Delete;
    if actions != [] {
      DeletionKeepsSound(hash, db, actions[0], cutoff);
      DeletionsKeepSound(hash, Delete(db, actions[0], cutoff).value, actions[1..], cutoff);
    }
  }

  // ---------- Runs ----------

  lemma SubmissionKeeps(hash: Hash, run: Run, p: HealthProjection)
    requires Sound(hash, run.db) && TracksAccepted(hash, run.db, run.accepted)
    ensures Sound(hash, Submit(hash, run, p).db)
    ensures TracksAccepted(hash, Submit(hash, run, p).db, Submit(hash, run, p).accepted)
  {
    hide Sound, TracksAccepted, Ingest;
    IngestionKeepsTrust(hash, run.db, p);
    if AcceptsNew(hash, run.db, p) {
      StepTracks(hash, run.db, run.accepted, p);
    }
  }

  lemma CleanupKeeps(hash: Hash, db: Db, accepted: seq<HealthProjection>, cutoff: int)
    requires Sound(hash, db) && TracksAccepted(hash, db, accepted)
    ensures Cleanup(db, cutoff).Some?
    ensures Sound(hash, Cleanup(db, cutoff).value)
    ensures TracksAccepted(hash, Cleanup(db, cutoff).value, accepted)
    ensures Cleanup(db, cutoff).value.checkpoint == db.checkpoint
  {
    hide Sound, Plan, ValidProjection, Increasing, Newest;
    CleanupCompletes(db, cutoff);
    DeletionsKeepSound(hash, db, Plan(db, cutoff), cutoff);
    DeletionsKeepTheRest(db, Plan(db, cutoff), cutoff);
  }

  lemma {:induction false} OperationsKeepSound(hash: Hash, operations: seq<Operation>)
    ensures var run := OperateAll(hash, operations);
            Sound(hash, run.db) && TracksAccepted(hash, run.db, run.accepted)
  {
    if operations == [] {
      EmptyIsSound(hash);
    } else {
      var n := |operations| - 1;
      var before := OperateAll(hash, operations[..n]);
      hide Sound, TracksAccepted, Submit, Cleanup;
      OperationsKeepSound(hash, operations[..n]);
      match operations[n] {
        case SubmitOne(p) => SubmissionKeeps(hash, before, p);
        case CleanUp(cutoff) => CleanupKeeps(hash, before.db, before.accepted, cutoff);
      }
    }
  }

  /**
   * Trust also survives retention: however submissions and cleanups are mixed, a submission
   * loses trust exactly if it is valid, new, and contradicts itself.
   */
  lemma TrustSurvivesRetention(hash: Hash, operations: seq<Operation>, p: HealthProjection)
    ensures var db := OperateAll(hash, operations).db;
            var result := Ingest(hash, db, p).result;
            result.Rejected? && result.rejection.trustLost <==>
              ValidProjection(hash, p) && IsNew(db, p) && DisabledButHealthy(p)
  {
    OperationsKeepSound(hash, operations);
    hide Sound, TracksAccepted, ValidProjection, Ingest, OperateAll, IsNew, DisabledButHealthy;
    IngestionKeepsTrust(hash, OperateAll(hash, operations).db, p);
  }

  /** And every retained observation is still answered with a replay, even if its sample is gone. */
  lemma ReplaysSurviveRetention(hash: Hash, operations: seq<Operation>, i: nat)
    requires var accepted := OperateAll(hash, operations).accepted;
             i < |accepted| && |accepted| - REPLAY_LEDGER_CAPACITY <= i
    ensures var run := OperateAll(hash, operations);
            Ingest(hash, run.db, run.accepted[i]) == Ingested(run.db, Accepted(Replayed))
  {
    hide *;
    OperationsKeepSound(hash, operations);
    var run := OperateAll(hash, operations);
    RetainedIsInLedger(hash, run.db, run.accepted, i);
    OldSequenceAnswer(hash, run.db, run.accepted[i]);
  }

  // ---------- Cleanups keep the rows readable ----------

  /** Every row passes the validators of the read side. */
  ghost predicate AllReadable(hash: Hash, db: Db) {
    && (forall id :: id in db.samples ==> SampleReadable(hash, id, db.samples[id]))
    && (forall id :: id in db.alerts ==> AlertReadable(db.samples.Keys, id, db.alerts[id]))
    && (forall id :: id in db.events ==> EventReadable(db.samples.Keys, id, db.events[id]))
  }

  lemma AlertStaysReadable(samples: set<int>, sample: int, id: int, row: AlertRow)
    requires AlertReadable(samples, id, row)
    ensures AlertReadable(samples - {sample}, id, ForgetInAlert(row, sample))
  {
  }

  lemma EventStaysReadable(samples: set<int>, sample: int, id: int, e: EventRow)
    requires EventReadable(samples, id, e)
    ensures EventReadable(samples - {sample}, id, ForgetInEvent(e, sample))
  {
  }

  lemma SampleDeletionKeepsReadable(hash: Hash, db: Db, sample: int)
    requires AllReadable(hash, db)
    ensures AllReadable(hash, WithoutSample(db, sample))
  {
    hide SampleReadable, AlertReadable, EventReadable, ForgetInAlert, ForgetInEvent;
    var after := WithoutSample(db, sample);
    assert after.samples.Keys == db.samples.Keys - {sample};
    forall id | id in db.alerts
      ensures AlertReadable(after.samples.Keys, id, after.alerts[id])
    {
      AlertStaysReadable(db.samples.Keys, sample, id, db.alerts[id]);
    }
    forall id | id in db.events
      ensures EventReadable(after.samples.Keys, id, after.events[id])
    {
      EventStaysReadable(db.samples.Keys, sample, id, db.events[id]);
    }
  }

  lemma {:induction false} DeletionsKeepReadable(hash: Hash, db: Db, actions: seq<Deletion>, cutoff: int)
    requires AllReadable(hash, db) && DeleteAll(db, actions, cutoff).Some?
    ensures AllReadable(hash, DeleteAll(db, actions, cutoff).value)
    decreases |actions|
  {
    hide SampleReadable, AlertReadable, EventReadable, WithoutSample, EventKeys;
    if actions != [] {
      if actions[0].DeleteSample? {
        SampleDeletionKeepsReadable(hash, db, actions[0].id);
      }
      DeletionsKeepReadable(hash, Delete(db, actions[0], cutoff).value, actions[1..], cutoff);
    }
  }
}
