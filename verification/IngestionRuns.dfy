/** Whole runs of ingestions from the empty database, and what one accepted step is made of. */
module IngestionRuns {
  import opened Wrappers
  import opened HealthModels
  import opened Projection
  import opened HistoryTables
  import opened Ingestion
  import opened AlertTable
  import opened AlertPlans
  import opened AlertPlanning
  import opened IngestionSafety

  /** The database after a stream of submissions, and the observations it accepted as new. */
  datatype Run = Run(db: Db, accepted: seq<HealthProjection>)

  function Submit(hash: Hash, run: Run, p: HealthProjection): Run {
    var r := Ingest(hash, run.db, p);
    Run(r.db, if LeavesTables(r.result) then run.accepted else run.accepted + [p])
  }

  function RunAll(hash: Hash, stream: seq<HealthProjection>): Run {
    if stream == [] then Run(EMPTY_DB, [])
    else Submit(hash, RunAll(hash, stream[..|stream| - 1]), stream[|stream| - 1])
  }

  lemma RunAppends(hash: Hash, stream: seq<HealthProjection>, p: HealthProjection)
    ensures RunAll(hash, stream + [p]) == Submit(hash, RunAll(hash, stream), p)
  {
    hide Submit;
    assert (stream + [p])[..|stream|] == stream;
  }

  lemma {:induction false} RunIsSound(hash: Hash, stream: seq<HealthProjection>)
    ensures Sound(hash, RunAll(hash, stream).db)
  {
    if stream == [] {
      EmptyIsSound(hash);
    } else {
      var n := |stream| - 1;
      RunIsSound(hash, stream[..n]);
      IngestionKeepsTrust(hash, RunAll(hash, stream[..n]).db, stream[n]);
    }
  }

  /**
   * Self-consistency over every run: whatever was submitted before, the next submission loses
   * trust exactly if it is valid, new, and claims that a component is switched off and healthy.
   */
  lemma TrustIsLostExactlyByContradiction(hash: Hash, stream: seq<HealthProjection>, p: HealthProjection)
    ensures var db := RunAll(hash, stream).db;
            var result := Ingest(hash, db, p).result;
            result.Rejected? && result.rejection.trustLost <==>
              ValidProjection(hash, p) && IsNew(db, p) && DisabledButHealthy(p)
  {
    RunIsSound(hash, stream);
    IngestionKeepsTrust(hash, RunAll(hash, stream).db, p);
  }

  // ---------- One accepted step ----------

  /** The submission is accepted as a new observation. */
  predicate AcceptsNew(hash: Hash, db: Db, p: HealthProjection) {
    !LeavesTables(Ingest(hash, db, p).result)
  }

  /** The stages of one accepted step: archive, decide, record, persist, move the checkpoint. */
  datatype Step = Step(archived: Db, decisions: Decisions, recorded: Db, sample: Option<int>, alerted: Db, final: Db)

  ghost predicate StepOf(hash: Hash, db: Db, p: HealthProjection, s: Step) {
    && ValidProjection(hash, p) && WellFormed(p) && IsNew(db, p)
    && Sound(hash, s.archived) && Settled(s.archived, p.recordedAt)
    && ArchiveEligible(db, p.recordedAt) == Success(s.archived)
    && Decide(hash, s.archived, p) == Success(s.decisions)
    && Plannable(s.archived, p, s.decisions)
    && s.recorded == Recorded(s.archived, p, s.decisions)
    && s.sample == SampleReference(s.archived, s.decisions)
    && PersistPlans(s.recorded, s.decisions.plans, p.recordedAt, s.sample) == Success(s.alerted)
    && WriteCheckpoint(s.alerted, p) == Success(s.final)
  }

  /** An accepted submission got past all checks to the writing stage. */
  lemma AcceptedAdvances(hash: Hash, db: Db, p: HealthProjection)
    requires AcceptsNew(hash, db, p)
    ensures ValidProjection(hash, p) && WellFormed(p) && IsNew(db, p) && HasEveryScope(db.evaluation)
    ensures Advance(hash, db, p).Success?
    ensures Ingest(hash, db, p) == Ingested(Advance(hash, db, p).value.0, Accepted(Advance(hash, db, p).value.1))
  {
    hide WellFormed, Advance, ReadCheckpoint, ValidateReplayAnchor, FindEntry, Readable;
  }

  lemma AdvanceStages(hash: Hash, db: Db, p: HealthProjection) returns (s: Step)
    requires WellFormed(p) && HasEveryScope(db.evaluation) && Advance(hash, db, p).Success?
    ensures ArchiveEligible(db, p.recordedAt) == Success(s.archived)
    ensures HasEveryScope(s.archived.evaluation) && Decide(hash, s.archived, p) == Success(s.decisions)
    ensures s.recorded == Recorded(s.archived, p, s.decisions)
    ensures s.sample == SampleReference(s.archived, s.decisions)
    ensures PersistPlans(s.recorded, s.decisions.plans, p.recordedAt, s.sample) == Success(s.alerted)
    ensures WriteCheckpoint(s.alerted, p) == Success(s.final)
    ensures Advance(hash, db, p) == Success((s.final, s.decisions.storage.outcome))
  {
    assert IsTimestamp(p.recordedAt);
    hide WellFormed, HasEveryScope, ArchiveEligible, Decide, Recorded, SampleReference, PersistPlans, WriteCheckpoint;
    hide SequenceUnused;
    var archived := ArchiveEligible(db, p.recordedAt).value;
    var decisions := Decide(hash, archived, p).value;
    var recorded, sample := Recorded(archived, p, decisions), SampleReference(archived, decisions);
    var alerted := PersistPlans(recorded, decisions.plans, p.recordedAt, sample).value;
    s := Step(archived, decisions, recorded, sample, alerted, WriteCheckpoint(alerted, p).value);
  }

  lemma AcceptedStep(hash: Hash, db: Db, p: HealthProjection) returns (s: Step)
    requires Sound(hash, db) && AcceptsNew(hash, db, p)
    ensures StepOf(hash, db, p, s)
    ensures Ingest(hash, db, p) == Ingested(s.final, Accepted(s.decisions.storage.outcome))
    ensures Sound(hash, s.final)
  {
    hide Sound, AcceptsNew, Ingest, ValidProjection, HasEveryScope, Advance, ArchiveEligible, Decide, Recorded;
    hide SampleReference, PersistPlans, WriteCheckpoint, Settled, OnlyArchives, DisabledButHealthy, LeavesTables, Plannable;
    hide Writable;
    AcceptedAdvances(hash, db, p);
    s := AdvanceStages(hash, db, p);
    IngestionKeepsTrust(hash, db, p);
    ArchivedIsSound(hash, db, p.recordedAt);
    DecisionsAreSound(hash, s.archived, p);
  }

  /** The sample that the alert events of a step refer to is stored before they are. */
  lemma RecordedSampleAvailable(db: Db, p: HealthProjection, d: Decisions)
    requires Plannable(db, p, d)
    ensures forall i :: 0 <= i < |d.plans| ==> SampleAvailable(Recorded(db, p, d), d.plans[i], SampleReference(db, d))
  {
  }

  /** An accepted step appends to the ledger, counts, and moves the checkpoint. */
  lemma StepMovesCheckpoint(hash: Hash, db: Db, p: HealthProjection)
    requires Sound(hash, db) && AcceptsNew(hash, db, p)
    ensures ValidProjection(hash, p) && IsNew(db, p)
    ensures var after := Ingest(hash, db, p).db;
            && after.checkpoint == Checkpoint(Some(EntryOf(p)), Saturated(db.checkpoint.acceptedCount + 1))
            && after.ledger == Newest(db.ledger + [EntryOf(p)])
  {
    hide Sound, Ingest, AcceptsNew, ValidProjection, WellFormed, ArchiveEligible, Decide, Recorded, SampleReference, PersistPlans,
      WriteCheckpoint, Settled, Plannable, SameApartFromAlerts, IsNew, LedgerOk, Newest;
    var s := AcceptedStep(hash, db, p);
    ValidParts(hash, p);
    LedgerOfSound(hash, db, p);
    LedgerIsWritten(db.checkpoint, db.ledger, EntryOf(p));
    StagesKeepCheckpoint(db, p, s);
  }

  lemma LedgerOfSound(hash: Hash, db: Db, p: HealthProjection)
    requires Sound(hash, db) && IsNew(db, p)
    ensures LedgerOk(db.checkpoint, db.ledger)
    ensures db.checkpoint.last.Some? ==> db.checkpoint.last.value.sequence < EntryOf(p).sequence
  {
    hide LedgerOk, EvaluationOk, SamplesOk, BaselineOk, AlertsOk;
  }

  /** Only the last stage touches the checkpoint and the ledger. */
  lemma StagesKeepCheckpoint(db: Db, p: HealthProjection, s: Step)
    requires IsTimestamp(p.recordedAt) && ArchiveEligible(db, p.recordedAt) == Success(s.archived)
    requires s.recorded == Recorded(s.archived, p, s.decisions)
    requires PersistPlans(s.recorded, s.decisions.plans, p.recordedAt, s.sample) == Success(s.alerted)
    requires WriteCheckpoint(s.alerted, p) == Success(s.final)
    ensures s.final.checkpoint == Checkpoint(Some(EntryOf(p)), Saturated(db.checkpoint.acceptedCount + 1))
    ensures s.final.ledger == TrimLedger(InsertInKeyOrder(db.ledger, EntryOf(p)))
  {
    hide ArchiveEligible, Recorded, PersistPlans, TrimLedger, InsertInKeyOrder;
  }
}
