/** When a cleanup finds rows that its reader refuses, and so gives up the store. */
module RetentionTrust {
  import opened Projection
  import opened RowOrder
  import opened HistoryTables
  import opened Queries
  import opened Retention
  import opened MixedRuns
  import opened ReaderAgreement
  import opened RetentionStore

  lemma {:induction false} EventsAreReadable(db: Db, candidates: seq<RowKey>, budget: nat)
    requires forall id :: id in db.events ==> EventReadable(db.samples.Keys, id, db.events[id])
    ensures EventsReadable(db, candidates, budget)
    decreases |candidates|
  {
    hide EventReadable, EventRows, AlertDeletions;
    if candidates != [] && budget > 0 {
      var k := candidates[0];
      EventsAreReadable(db, candidates[1..], if k.1 == SAMPLE_TYPE then budget - 1 else budget - |AlertDeletions(db, k.2, budget)|);
    }
  }

  /** The alerts that a cleanup fetches, up to its budget, all recovered after they opened. */
  ghost predicate FetchesNoEarlyRecovery(db: Db, cutoff: int) {
    var rows := AlertRows(db, cutoff);
    forall i :: 0 <= i < |rows| ==> RecoveredAfterOpening(db.alerts[rows[i].2])
  }

  lemma FetchedReadableExactly(hash: Hash, db: Db, cutoff: int)
    requires ReadableSaveEarlyRecoveries(hash, db)
    ensures FetchedReadable(hash, db, cutoff) <==> FetchesNoEarlyRecovery(db, cutoff)
  {
    hide SampleReadable, AlertReadable, EventReadable, EventsReadable, RecoveredAfterOpening, SampleRows, AlertRows, Candidates;
    EventsAreReadable(db, Candidates(db, cutoff), RETENTION_ROW_BUDGET);
  }

  lemma NoEarlyRecoveryToFetch(db: Db, cutoff: int)
    requires forall id :: id in db.alerts ==> RecoveredAfterOpening(db.alerts[id])
    ensures FetchesNoEarlyRecovery(db, cutoff)
  {
    hide AlertRows;
    var rows := AlertRows(db, cutoff);
    forall i | 0 <= i < |rows|
      ensures RecoveredAfterOpening(db.alerts[rows[i].2])
    {
      var id := rows[i].2;
      assert id in db.alerts;
    }
  }

  /**
   * After every run of submissions and cleanups, a cleanup finds a row that its reader refuses
   * exactly if one of the alerts it fetches recovered at an earlier time than it opened; so it
   * never does while recorded times do not decrease.
   */
  lemma CleanupReadsExactly(hash: Hash, operations: seq<Operation>, cutoff: int)
    requires IdsInRange(OperateAll(hash, operations).db)
    ensures var run := OperateAll(hash, operations);
            && (FetchedReadable(hash, run.db, cutoff) <==> FetchesNoEarlyRecovery(run.db, cutoff))
            && (NeverDecreasing(run.accepted) ==> FetchedReadable(hash, run.db, cutoff))
  {
    hide OperateAll, IdsInRange, ReadableSaveEarlyRecoveries, FetchedReadable, RunInOrder, AlertRows, RecoveredAfterOpening;
    var run := OperateAll(hash, operations);
    ReaderAcceptsExactly(hash, operations);
    FetchedReadableExactly(hash, run.db, cutoff);
    if NeverDecreasing(run.accepted) {
      RunKeepsOrder(hash, operations, true);
      DatedRunsRecoverAfterOpening(run);
      NoEarlyRecoveryToFetch(run.db, cutoff);
    }
  }
}
