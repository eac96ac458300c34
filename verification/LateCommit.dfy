/** A run of a cleanup that deletes its row, commits, and then reports that it ran out of time. */
module LateCommit {
  import opened Wrappers
  import opened HealthModels
  import opened Projection
  import opened RowOrder
  import opened HistoryTables
  import opened Ingestion
  import opened HistoryStore
  import opened IngestionSafety
  import opened Compaction
  import opened Queries
  import opened Retention
  import opened RetentionRuns
  import opened RetentionStore
  import opened EarlyRecovery
  import opened Reports

  const NOW: int := 2 * MICROSECONDS_PER_DAY

  /** The first observation of all is accepted; it leaves its sample and at most open alerts. */
  lemma FirstIsStored(sha: string -> Digest, p: HealthProjection)
    requires DigestsAreFull(sha) && Observed(sha, 1, 0, Healthy, StartupGap) == Some(p)
    ensures var after := Ingest(CanonicalHash(sha), EMPTY_DB, p).db;
            && after.samples.Keys == {1} && RowProjection(after.samples[1]) == p
            && forall id :: id in after.alerts ==> after.alerts[id].state.lifecycle != Archived
  {
    hide Observed, DigestsAreFull, CanonicalHash, Ingest, ValidProjection, Sound, DisabledButHealthy, IsNew, BaselineIsNewest, WellFormed,
      RowProjection, SampleOf;
    var hash := CanonicalHash(sha);
    ObservedIsValid(sha, 1, 0, Healthy, StartupGap);
    EmptyIsSound(hash);
    FirstIsNew(p);
    IngestionKeepsTrust(hash, EMPTY_DB, p);
    EmptyIsLossless();
    LosslessHasBaseline(EMPTY_DB, []);
    StepAddsOrSkips(hash, EMPTY_DB, p);
    ValidParts(hash, p);
    StepIsDated(hash, EMPTY_DB, p);
    NoRowsYet();
  }

  lemma FirstIsNew(p: HealthProjection)
    ensures IsNew(EMPTY_DB, p)
  {
  }

  lemma NoRowsYet()
    ensures EMPTY_DB.samples == map[] && EMPTY_DB.alerts == map[] && NextId({}) == 1
    ensures HasEveryScope(EMPTY_DB.evaluation) && Baseline(EMPTY_DB.evaluation).None?
  {
  }

  lemma {:induction false} SamplesHaveNoEvents(db: Db, candidates: seq<RowKey>, budget: nat)
    requires forall i :: 0 <= i < |candidates| ==> candidates[i].1 == SAMPLE_TYPE
    ensures EventsReadable(db, candidates, budget)
    decreases |candidates|
  {
    if candidates != [] && budget > 0 {
      SamplesHaveNoEvents(db, candidates[1..], budget - 1);
    }
  }

  lemma NothingArchived(db: Db, cutoff: int)
    requires forall id :: id in db.alerts ==> db.alerts[id].state.lifecycle != Archived
    ensures AlertKeys(db, cutoff) == {} && AlertRows(db, cutoff) == []
    ensures var candidates := Candidates(db, cutoff);
            forall i :: 0 <= i < |candidates| ==> candidates[i].1 == SAMPLE_TYPE
  {
    hide Sorted, Fetch, SampleKeys;
    assert AlertKeys(db, cutoff) == {};
    var rows, none := SampleRows(db, cutoff), AlertRows(db, cutoff);
    NothingFetched();
    MergedComesFrom(rows, none);
  }

  lemma NothingFetched()
    ensures Fetch({}, RETENTION_ROW_BUDGET) == []
  {
  }

  lemma MergedComesFrom(a: seq<RowKey>, b: seq<RowKey>)
    requires b == [] && forall i :: 0 <= i < |a| ==> a[i].1 == SAMPLE_TYPE
    ensures forall i :: 0 <= i < |Merged(a, b)| ==> Merged(a, b)[i].1 == SAMPLE_TYPE
  {
    hide Sorted;
    var merged := Merged(a, b);
    forall i | 0 <= i < |merged|
      ensures merged[i].1 == SAMPLE_TYPE
    {
      assert merged[i] in merged;
      assert merged[i] in a;
    }
  }

  lemma OneSampleIsReadable(hash: Hash, db: Db, p: HealthProjection, cutoff: int)
    requires db.samples.Keys == {1} && RowProjection(db.samples[1]) == p && ValidProjection(hash, p)
    requires forall id :: id in db.alerts ==> db.alerts[id].state.lifecycle != Archived
    ensures FetchedReadable(hash, db, cutoff)
  {
    hide Candidates, SampleKeys, AlertKeys, SampleReadable, AlertReadable, Fetch, EventsReadable, RowProjection, ValidProjection;
    NothingArchived(db, cutoff);
    SamplesHaveNoEvents(db, Candidates(db, cutoff), RETENTION_ROW_BUDGET);
    ValidRowReads(hash, 1, db.samples[1]);
  }

  lemma ValidRowReads(hash: Hash, id: int, row: SampleRow)
    requires IsRowId(id) && ValidProjection(hash, RowProjection(row))
    ensures SampleReadable(hash, id, row)
  {
  }

  lemma OneSampleExpires(db: Db, cutoff: int)
    requires db.samples.Keys == {1} && db.samples[1].observedAt < cutoff
    ensures Expired(db, cutoff) != []
  {
    hide Expired;
    ListedExactly(db, cutoff, DeleteSample(1));
  }

  /** One observation, a cleanup two days later: its sample is gone, and the answer is a timeout. */
  method CommittedTimeout(sha: string -> Digest)
    returns (store: Store, ghost p: HealthProjection, ghost before: Db, r: Result<CleanupResult, MaintenanceRejection>)
    requires DigestsAreFull(sha)
    ensures fresh(store) && r == Failure(TimedOut)
    ensures Observed(sha, 1, 0, Healthy, StartupGap) == Some(p) && before == Ingest(CanonicalHash(sha), EMPTY_DB, p).db
    ensures Some(store.Tables()) == Cleanup(before, Cutoff(NOW, 1)) && store.Tables() != before
  {
    hide Observed, DigestsAreFull, CanonicalHash, Ingest, ValidProjection, WellFormed, RowProjection, FetchedReadable, Expired, Cleanup;
    ObservedIsValid(sha, 1, 0, Healthy, StartupGap);
    var first := Observed(sha, 1, 0, Healthy, StartupGap).value;
    p := first;
    FirstIsStored(sha, p);
    store := new Store();
    var stored := store.IngestProjection(CanonicalHash(sha), first);
    before := store.Tables();
    OneSampleIsReadable(CanonicalHash(sha), before, p, Cutoff(NOW, 1));
    ObservedAtZero(sha, p, before.samples[1]);
    OneSampleExpires(before, Cutoff(NOW, 1));
    r := TimeoutAfterCommit(store, CanonicalHash(sha), NOW, 1);
  }

  lemma ObservedAtZero(sha: string -> Digest, p: HealthProjection, row: SampleRow)
    requires Observed(sha, 1, 0, Healthy, StartupGap) == Some(p) && RowProjection(row) == p
    ensures row.observedAt == 0
  {
    hide CanonicalText, WellFormed, Ordered;
  }
}
