/** Lossless compaction: what is not stored can be read off the latest sample that is. */
module Compaction {
  import opened Wrappers
  import opened HealthModels
  import opened Projection
  import opened RowOrder
  import opened HistoryTables
  import opened Ingestion
  import opened AlertPlanning
  import opened IngestionSafety
  import opened IngestionRuns

  type Samples = map<int, SampleRow>

  /** `id` is the latest sample at or before `sequence`. */
  ghost predicate IsLatestAt(samples: Samples, id: int, sequence: int) {
    && id in samples
    && samples[id].sequence <= sequence
    && forall other :: other in samples && samples[other].sequence <= sequence ==>
         samples[other].sequence <= samples[id].sequence
  }

  /** What a list of components says about health: status and reasons of each. */
  function HealthOf(components: seq<ComponentProjection>): seq<(ComponentName, Status, seq<Reason>)> {
    seq(|components|, i requires 0 <= i < |components| =>
      (components[i].component, components[i].status, components[i].reasons))
  }

  /** The sample and the observation show the same health. */
  predicate Alike(row: SampleRow, p: HealthProjection) {
    row.overall == p.overall && HealthOf(row.components) == HealthOf(p.components)
  }

  lemma SameHealthIsAlike(row: SampleRow, p: HealthProjection)
    ensures SameHealth(row, p) <==> Alike(row, p)
  {
    if HealthOf(row.components) == HealthOf(p.components) {
      assert |row.components| == |HealthOf(p.components)|;
      forall i | 0 <= i < |p.components|
        ensures (row.components[i].component, row.components[i].status, row.components[i].reasons)
             == (p.components[i].component, p.components[i].status, p.components[i].reasons)
      {
        assert HealthOf(row.components)[i] == HealthOf(p.components)[i];
      }
    }
  }

  /** The sample shows the same health; unless it is the observation's own, it is younger than a heartbeat. */
  predicate Shows(row: SampleRow, p: HealthProjection) {
    && Alike(row, p)
    && (row.sequence == p.sequence || p.recordedAt - row.recordedAt < 900_000_000)
  }

  ghost predicate Recoverable(samples: Samples, p: HealthProjection) {
    exists id :: IsLatestAt(samples, id, p.sequence) && Shows(samples[id], p)
  }

  /** The baseline of the evaluation rows is the newest sample, and its time is the last heartbeat. */
  ghost predicate BaselineIsNewest(db: Db) {
    && HasEveryScope(db.evaluation)
    && match db.checkpoint.last
       case None => db.samples == map[]
       case Some(last) =>
         && Baseline(db.evaluation).Some?
         && IsLatestAt(db.samples, Baseline(db.evaluation).value, last.sequence)
         && (forall id :: id in db.samples ==> db.samples[id].sequence <= last.sequence)
         && db.evaluation[Overall].lastHeartbeat == Some(db.samples[Baseline(db.evaluation).value].recordedAt)
  }

  /** What an accepted step writes about samples. */
  lemma StepStores(hash: Hash, db: Db, p: HealthProjection, s: Step)
    requires StepOf(hash, db, p, s)
    ensures s.final.evaluation == s.recorded.evaluation && s.final.samples == s.recorded.samples
    ensures s.archived == db.(alerts := s.archived.alerts, events := s.archived.events)
    ensures s.decisions.storage.storedKind.None? ==>
              && Baseline(db.evaluation).Some?
              && Baseline(db.evaluation).value in db.samples
              && SameHealth(db.samples[Baseline(db.evaluation).value], p)
              && db.evaluation[Overall].lastHeartbeat.Some?
              && !HeartbeatDue(db.evaluation[Overall].lastHeartbeat.value, p.recordedAt)
    ensures s.decisions.storage.outcome == StateOnly <==> s.decisions.storage.storedKind.None?
    ensures StoresSoundly(db, s.decisions.storage)
  {
    hide Sound, ValidProjection, WellFormed, IsNew, ArchiveEligible, Decide, Recorded, SampleReference, PersistPlans, WriteCheckpoint,
      Settled, Plannable, HasEveryScope, SameHealth, HeartbeatDue, DecideStorage, ForceTransition, StoresSoundly;
    StorageIsDecided(hash, s.archived, p);
    BaselineIsRead(hash, s.archived);
    SoundParts(hash, s.archived);
    ValidParts(hash, p);
    StorageOfDecision(hash, s.archived, p, s.decisions);
    StorageMeans(hash, s.archived, p, DecideStorage(hash, s.archived, p).value);
    StagesKeepSamples(db, p, s);
    StoresAlike(s.archived, db, s.decisions.storage);
  }

  lemma StoresAlike(a: Db, b: Db, d: StorageDecision)
    requires HasEveryScope(a.evaluation) && a.evaluation == b.evaluation && a.checkpoint == b.checkpoint
    ensures StoresSoundly(a, d) == StoresSoundly(b, d)
  {
    hide HasEveryScope;
  }

  lemma StorageOfDecision(hash: Hash, db: Db, p: HealthProjection, d: Decisions)
    requires WellFormed(p) && HasEveryScope(db.evaluation) && Decide(hash, db, p) == Success(d)
    ensures DecideStorage(hash, db, p).Success?
    ensures var storage := DecideStorage(hash, db, p).value;
            d.storage == if AnyNeedsSample(d.plans) then ForceTransition(storage) else storage
  {
    hide WellFormed, HasEveryScope, EvaluateScopes, EvaluateGap, PlanAlerts, DecideStorage, AnyNeedsSample, ForceTransition;
  }

  /** Nothing is stored exactly if the answer is `StateOnly`, and then the baseline shows the same health, recently. */
  lemma StorageMeans(hash: Hash, db: Db, p: HealthProjection, storage: StorageDecision)
    requires HasEveryScope(db.evaluation) && BaselineReference(hash, db) == Success(Baseline(db.evaluation))
    requires DecideStorage(hash, db, p) == Success(storage)
    ensures ForceTransition(storage).storedKind.Some? && ForceTransition(storage).outcome != StateOnly
    ensures storage.outcome == StateOnly <==> storage.storedKind.None?
    ensures storage.storedKind.None? ==>
              && Baseline(db.evaluation).Some?
              && Baseline(db.evaluation).value in db.samples
              && SameHealth(db.samples[Baseline(db.evaluation).value], p)
              && db.evaluation[Overall].lastHeartbeat.Some?
              && !HeartbeatDue(db.evaluation[Overall].lastHeartbeat.value, p.recordedAt)
  {
    hide HasEveryScope, SameHealth, HeartbeatDue;
  }

  /** The last two stages leave samples and evaluation rows alone, and the first changes alerts only. */
  lemma StagesKeepSamples(db: Db, p: HealthProjection, s: Step)
    requires IsTimestamp(p.recordedAt) && ArchiveEligible(db, p.recordedAt) == Success(s.archived)
    requires PersistPlans(s.recorded, s.decisions.plans, p.recordedAt, s.sample) == Success(s.alerted)
    requires WriteCheckpoint(s.alerted, p) == Success(s.final)
    ensures s.final.evaluation == s.recorded.evaluation && s.final.samples == s.recorded.samples
    ensures s.archived == db.(alerts := s.archived.alerts, events := s.archived.events)
    ensures s.archived.checkpoint == db.checkpoint
  {
    hide ArchiveEligible, PersistPlans, TrimLedger, InsertInKeyOrder;
  }

  /** The samples and the overall row after a step, with and without a new sample. */
  ghost predicate SampleAdded(before: Db, after: Db, p: HealthProjection) {
    && HasEveryScope(before.evaluation) && HasEveryScope(after.evaluation)
    && after.checkpoint.last == Some(EntryOf(p))
    && exists id, kind ::
         && id == NextId(before.samples.Keys)
         && after.samples == before.samples[id := SampleOf(p, kind)]
         && Baseline(after.evaluation) == Some(id)
         && after.evaluation[Overall].lastHeartbeat == Some(p.recordedAt)
  }

  ghost predicate SampleSkipped(before: Db, after: Db, p: HealthProjection) {
    && HasEveryScope(before.evaluation) && HasEveryScope(after.evaluation)
    && after.checkpoint.last == Some(EntryOf(p))
    && after.samples == before.samples
    && Baseline(before.evaluation).Some?
    && Baseline(before.evaluation).value in before.samples
    && SameHealth(before.samples[Baseline(before.evaluation).value], p)
    && before.evaluation[Overall].lastHeartbeat.Some?
    && !HeartbeatDue(before.evaluation[Overall].lastHeartbeat.value, p.recordedAt)
    && Baseline(after.evaluation) == Baseline(before.evaluation)
    && after.evaluation[Overall].lastHeartbeat == before.evaluation[Overall].lastHeartbeat
  }

  lemma StepAddsOrSkips(hash: Hash, db: Db, p: HealthProjection)
    requires Sound(hash, db) && BaselineIsNewest(db) && AcceptsNew(hash, db, p)
    ensures var r := Ingest(hash, db, p);
            if r.result == Accepted(StateOnly) then SampleSkipped(db, r.db, p) else SampleAdded(db, r.db, p)
  {
    hide Sound, ValidProjection, WellFormed, AcceptsNew, Ingest, IsNew, ArchiveEligible, Decide, Recorded, SampleReference, PersistPlans,
      WriteCheckpoint, Settled, Plannable, SampleAdded, SampleSkipped, StoresSoundly, BaselineIsNewest, SameHealth, HeartbeatDue;
    var s := AcceptedStep(hash, db, p);
    StepMovesCheckpoint(hash, db, p);
    StepStores(hash, db, p, s);
    SoundParts(hash, s.archived);
    RecordedMeans(db, s.archived, p, s.decisions, s.final);
  }

  lemma RecordedMeans(db: Db, archived: Db, p: HealthProjection, d: Decisions, after: Db)
    requires HasEveryScope(archived.evaluation) && archived == db.(alerts := archived.alerts, events := archived.events)
    requires after.evaluation == Recorded(archived, p, d).evaluation && after.samples == Recorded(archived, p, d).samples
    requires after.checkpoint.last == Some(EntryOf(p)) && StoresSoundly(db, d.storage)
    requires d.storage.storedKind.None? ==>
               && Baseline(db.evaluation).Some?
               && Baseline(db.evaluation).value in db.samples
               && SameHealth(db.samples[Baseline(db.evaluation).value], p)
               && db.evaluation[Overall].lastHeartbeat.Some?
               && !HeartbeatDue(db.evaluation[Overall].lastHeartbeat.value, p.recordedAt)
    requires BaselineIsNewest(db)
    ensures if d.storage.storedKind.None? then SampleSkipped(db, after, p) else SampleAdded(db, after, p)
  {
    hide SampleOf, SameHealth, HeartbeatDue, IsLatestAt;
    var sample := SampleReference(archived, d);
    if sample.Some? {
      var id, kind := sample.value, d.storage.storedKind.value;
      assert id == NextId(db.samples.Keys) && after.samples == db.samples[id := SampleOf(p, kind)];
    }
  }

  lemma AddedKeepsCompaction(before: Db, after: Db, p: HealthProjection)
    requires SampleAdded(before, after, p) && BaselineIsNewest(before) && IsNew(before, p)
    ensures BaselineIsNewest(after)
    ensures Recoverable(after.samples, p)
    ensures forall q :: Recoverable(before.samples, q) && q.sequence < p.sequence ==> Recoverable(after.samples, q)
  {
    var id, kind :|
      && id == NextId(before.samples.Keys)
      && after.samples == before.samples[id := SampleOf(p, kind)]
      && Baseline(after.evaluation) == Some(id)
      && after.evaluation[Overall].lastHeartbeat == Some(p.recordedAt);
    assert forall other :: other in after.samples ==> after.samples[other].sequence <= p.sequence;
    assert IsLatestAt(after.samples, id, p.sequence) && Shows(after.samples[id], p);
    forall q | Recoverable(before.samples, q) && q.sequence < p.sequence
      ensures Recoverable(after.samples, q)
    {
      var shown :| IsLatestAt(before.samples, shown, q.sequence) && Shows(before.samples[shown], q);
      assert IsLatestAt(after.samples, shown, q.sequence) && Shows(after.samples[shown], q);
    }
  }

  lemma SkippedKeepsCompaction(before: Db, after: Db, p: HealthProjection)
    requires SampleSkipped(before, after, p) && BaselineIsNewest(before) && IsNew(before, p)
    ensures BaselineIsNewest(after)
    ensures Recoverable(after.samples, p)
    ensures forall id :: id in after.samples ==> after.samples[id].sequence != p.sequence
  {
    var id := Baseline(before.evaluation).value;
    SameHealthIsAlike(after.samples[id], p);
    assert IsLatestAt(after.samples, id, p.sequence) && Shows(after.samples[id], p);
  }

  /** What compaction promises about a database and the observations it has accepted. */
  ghost predicate Lossless(db: Db, accepted: seq<HealthProjection>) {
    && BaselineIsNewest(db)
    && (forall i :: 0 <= i < |accepted| ==> Recoverable(db.samples, accepted[i]))
    && (forall i :: 0 <= i < |accepted| ==>
          db.checkpoint.last.Some? && accepted[i].sequence <= db.checkpoint.last.value.sequence)
  }

  lemma AddedIsLossless(before: Db, after: Db, accepted: seq<HealthProjection>, p: HealthProjection)
    requires Lossless(before, accepted) && IsNew(before, p) && SampleAdded(before, after, p)
    ensures Lossless(after, accepted + [p])
  {
    AddedKeepsCompaction(before, after, p);
    hide Recoverable, BaselineIsNewest;
  }

  lemma SkippedIsLossless(before: Db, after: Db, accepted: seq<HealthProjection>, p: HealthProjection)
    requires Lossless(before, accepted) && IsNew(before, p) && SampleSkipped(before, after, p)
    ensures Lossless(after, accepted + [p])
  {
    SkippedKeepsCompaction(before, after, p);
    hide Recoverable, BaselineIsNewest;
  }

  lemma LosslessHasBaseline(db: Db, accepted: seq<HealthProjection>)
    requires Lossless(db, accepted)
    ensures BaselineIsNewest(db)
  {
  }

  lemma StepIsLossless(hash: Hash, db: Db, accepted: seq<HealthProjection>, p: HealthProjection)
    requires Sound(hash, db) && Lossless(db, accepted) && AcceptsNew(hash, db, p)
    ensures Lossless(Ingest(hash, db, p).db, accepted + [p])
  {
    hide *;
    LosslessHasBaseline(db, accepted);
    StepMovesCheckpoint(hash, db, p);
    StepAddsOrSkips(hash, db, p);
    if Ingest(hash, db, p).result == Accepted(StateOnly) {
      SkippedIsLossless(db, Ingest(hash, db, p).db, accepted, p);
    } else {
      AddedIsLossless(db, Ingest(hash, db, p).db, accepted, p);
    }
  }

  lemma EmptyIsLossless()
    ensures Lossless(EMPTY_DB, [])
  {
  }

  /**
   * Lossless compaction over every run of ingestions: for each accepted observation the latest
   * sample at or before it has the same overall status and the same status and reasons of every
   * component, and an observation without a sample of its own was recorded less than fifteen
   * minutes after that sample.
   */
  lemma {:induction false} CompactionIsLossless(hash: Hash, stream: seq<HealthProjection>)
    ensures var run := RunAll(hash, stream); Lossless(run.db, run.accepted)
  {
    hide Sound, Lossless, Ingest;
    if stream == [] {
      EmptyIsLossless();
    } else {
      var n := |stream| - 1;
      var before, p := RunAll(hash, stream[..n]), stream[n];
      CompactionIsLossless(hash, stream[..n]);
      RunIsSound(hash, stream[..n]);
      if AcceptsNew(hash, before.db, p) {
        StepIsLossless(hash, before.db, before.accepted, p);
      } else {
        IngestionKeepsTrust(hash, before.db, p);
      }
    }
  }

  /** Exactly the observations answered with `StateOnly` get no sample of their own. */
  lemma StateOnlyMeansUnsampled(hash: Hash, stream: seq<HealthProjection>, p: HealthProjection)
    requires AcceptsNew(hash, RunAll(hash, stream).db, p)
    ensures var r := Ingest(hash, RunAll(hash, stream).db, p);
            r.result == Accepted(StateOnly) <==>
              forall id :: id in r.db.samples ==> r.db.samples[id].sequence != p.sequence
  {
    var db := RunAll(hash, stream).db;
    RunIsSound(hash, stream);
    CompactionIsLossless(hash, stream);
    StepMovesCheckpoint(hash, db, p);
    StepAddsOrSkips(hash, db, p);
    hide Sound, ValidProjection, AcceptsNew, Recoverable;
    var r := Ingest(hash, db, p);
    if r.result == Accepted(StateOnly) {
      SkippedKeepsCompaction(db, r.db, p);
    } else {
      var id, kind :| id == NextId(db.samples.Keys) && r.db.samples == db.samples[id := SampleOf(p, kind)];
      assert id in r.db.samples && r.db.samples[id].sequence == p.sequence;
    }
    hide Ingest;
  }
}
