/**
 * A scheduler that is the only writer of its database.  It may be restarted, rows may be cleaned
 * up, reads may fail, and an observation or the answer to it may get lost on the way.
 */
module SingleWriter {
  import opened Wrappers
  import opened Projection
  import opened HistoryTables
  import I = Ingestion
  import opened IngestionSafety
  import opened IngestionRuns
  import opened ExactlyOnce
  import opened RetentionRuns
  import opened MixedRuns
  import opened Reports
  import opened Cadence
  import opened Scheduler

  /** What becomes of a submitted observation. */
  datatype Delivery =
    | NotDelivered(failure: SchedulerOutcome)
    | Answered
    | AnswerLost(failure: SchedulerOutcome)

  datatype Event =
    | Due(monotonic: Option<real>, readFailure: Option<SchedulerOutcome>, utcNow: Option<int>, report: Option<Report>,
          delivery: Delivery, maintenance: Maintenance)
    | Cleaned(cutoff: int)
    | Restarted(at: real)

  datatype World = World(state: SchedulerState, run: Run)

  function ResumeOf(db: Db): ResumeState {
    match db.checkpoint.last
    case None => ResumeState(None, None, None, db.checkpoint.acceptedCount)
    case Some(last) => ResumeState(Some(last.sequence), Some(last.observedAt), Some(last.kind), db.checkpoint.acceptedCount)
  }

  function Started(db: Db, monotonic: real): SchedulerState {
    SchedulerState(CadenceState(monotonic, monotonic, 0), ResumeOf(db), NextSequence(ResumeOf(db)), true)
  }

  function OutcomeOf(result: I.IngestionResult): SchedulerOutcome {
    match result
    case Accepted(Replayed) => ReplayedStored
    case Accepted(StateOnly) => StateOnlyStored
    case Accepted(_) => Stored
    case Rejected(rejection) =>
      match rejection.reason
      case InvalidProjection => InvalidObservation
      case StaleSequence => StaleObservation
      case SequenceConflict => ConflictingObservation
      case GenerationExhausted => AlertGenerationsExhausted
      case _ => TrustLost
  }

  /** A failure is never reported as an acceptance. */
  function AsFailure(outcome: SchedulerOutcome): SchedulerOutcome {
    if IsAccepted(outcome) then TrustLost else outcome
  }

  /** The surroundings of a due opportunity in which the observation is answered with `observation`. */
  function Surroundings(db: Db, e: Event, observation: SchedulerOutcome): Opportunity
    requires e.Due?
  {
    Opportunity(
      e.monotonic,
      if e.readFailure.Some? then Failure(e.readFailure.value) else Success(ResumeOf(db)),
      e.utcNow, e.report, observation, false, e.maintenance)
  }

  function SubmittedIn(sha: string -> Digest, interval: int, w: World, e: Event): Option<HealthProjection>
    requires IsInterval(interval) && e.Due?
  {
    Submitted(sha, interval, w.state, Surroundings(w.run.db, e, NotDue))
  }

  /** What the scheduler hears about a submitted observation. */
  function Heard(hash: Hash, db: Db, p: HealthProjection, delivery: Delivery): SchedulerOutcome {
    match delivery
    case NotDelivered(failure) => AsFailure(failure)
    case Answered => OutcomeOf(I.Ingest(hash, db, p).result)
    case AnswerLost(failure) => AsFailure(failure)
  }

  /** The opportunity that a due event amounts to. */
  function Faced(sha: string -> Digest, interval: int, w: World, e: Event): Opportunity
    requires IsInterval(interval) && e.Due?
  {
    var p := SubmittedIn(sha, interval, w, e);
    Surroundings(w.run.db, e, if p.None? then NotDue else Heard(CanonicalHash(sha), w.run.db, p.value, e.delivery))
  }

  function Happen(sha: string -> Digest, interval: int, w: World, e: Event): World
    requires IsInterval(interval)
  {
    match e
    case Cleaned(cutoff) => World(w.state, Operate(CanonicalHash(sha), w.run, CleanUp(cutoff)))
    case Restarted(at) => World(Started(w.run.db, at), w.run)
    case Due(_, _, _, _, delivery, _) =>
      var p := SubmittedIn(sha, interval, w, e);
      World(
        RunDueOpportunity(sha, interval, w.state, Faced(sha, interval, w, e)).state,
        if p.None? || delivery.NotDelivered? then w.run else Submit(CanonicalHash(sha), w.run, p.value))
  }

  function HappenAll(sha: string -> Digest, interval: int, monotonic: real, events: seq<Event>): World
    requires IsInterval(interval)
  {
    if events == [] then World(Started(EMPTY_DB, monotonic), Run(EMPTY_DB, []))
    else
      var n := |events| - 1;
      Happen(sha, interval, HappenAll(sha, interval, monotonic, events[..n]), events[n])
  }

  function LastSequence(db: Db): int {
    if db.checkpoint.last.None? then 0 else db.checkpoint.last.value.sequence
  }

  /** The database is sound, the accepted sequences are 1, 2, 3 and so on, and the scheduler is not ahead of them. */
  ghost predicate InStep(hash: Hash, w: World) {
    && Sound(hash, w.run.db)
    && TracksAccepted(hash, w.run.db, w.run.accepted)
    && (forall i :: 0 <= i < |w.run.accepted| ==> w.run.accepted[i].sequence == i + 1)
    && (w.state.resume.lastSequence.Some? ==>
          w.run.db.checkpoint.last.Some? && w.state.resume.lastSequence.value <= LastSequence(w.run.db))
  }

  /** Whatever is submitted has the sequence right after the checkpoint. */
  lemma SubmittedIsNext(sha: string -> Digest, interval: int, w: World, e: Event)
    requires DigestsAreFull(sha) && IsInterval(interval) && e.Due?
    requires InStep(CanonicalHash(sha), w) && SubmittedIn(sha, interval, w, e).Some?
    ensures var p := SubmittedIn(sha, interval, w, e).value;
            && ValidProjection(CanonicalHash(sha), p)
            && p.sequence == LastSequence(w.run.db) + 1
            && IsNew(w.run.db, p)
            && (e.report.Some? && e.report.value.Normalized() ==> !DisabledButHealthy(p))
            && e.report.Some?
  {
    hide ProjectHealthReport, ValidProjection, DisabledButHealthy, Sound, TracksAccepted, DigestsAreFull, Submitted;
    var kind, missed := SubmittedParts(sha, interval, w.state, Surroundings(w.run.db, e, NotDue));
    ProjectedIsValid(
      sha, e.report.value, NextSequence(ResumeOf(w.run.db)).value, e.utcNow.value, kind, missed);
  }

  // ---------- Every event keeps scheduler and database in step ----------

  lemma SubmissionInStep(hash: Hash, run: Run, p: HealthProjection)
    requires Sound(hash, run.db) && TracksAccepted(hash, run.db, run.accepted)
    requires forall i :: 0 <= i < |run.accepted| ==> run.accepted[i].sequence == i + 1
    requires p.sequence == LastSequence(run.db) + 1
    ensures var after := Submit(hash, run, p);
            && Sound(hash, after.db) && TracksAccepted(hash, after.db, after.accepted)
            && (forall i :: 0 <= i < |after.accepted| ==> after.accepted[i].sequence == i + 1)
            && LastSequence(run.db) <= LastSequence(after.db)
            && (run.db.checkpoint.last.Some? ==> after.db.checkpoint.last.Some?)
            && (AcceptsNew(hash, run.db, p) ==> after.db.checkpoint.last == Some(EntryOf(p)))
            && (!AcceptsNew(hash, run.db, p) ==> after.db == run.db)
  {
    hide Sound, I.Ingest, ValidProjection;
    SubmissionKeeps(hash, run, p);
    LastOfTracked(hash, run.db, run.accepted);
    IngestionKeepsTrust(hash, run.db, p);
    if AcceptsNew(hash, run.db, p) {
      StepMovesCheckpoint(hash, run.db, p);
    }
    hide TracksAccepted;
  }

  lemma LastOfTracked(hash: Hash, db: Db, accepted: seq<HealthProjection>)
    requires TracksAccepted(hash, db, accepted)
    requires forall i :: 0 <= i < |accepted| ==> accepted[i].sequence == i + 1
    ensures LastSequence(db) == |accepted|
  {
    hide ValidProjection;
  }

  /** What the scheduler remembers after an opportunity: as before, as just read, or what it had accepted. */
  lemma RememberedAfter(sha: string -> Digest, interval: int, s: SchedulerState, o: Opportunity)
    requires IsInterval(interval)
    ensures var after := RunDueOpportunity(sha, interval, s, o);
            match after.accepted
            case None =>
              || after.state.resume == s.resume
              || (o.resume.Success? && after.state.resume == o.resume.value)
            case Some(p) =>
              && IsAccepted(o.observation)
              && Submitted(sha, interval, s, o) == Some(p)
              && after.state.resume.lastSequence == Some(p.sequence)
  {
    hide ProjectHealthReport, Decide;
  }

  lemma SubmissionIgnoresAnswer(sha: string -> Digest, interval: int, s: SchedulerState, db: Db, e: Event, observation: SchedulerOutcome)
    requires IsInterval(interval) && e.Due?
    ensures Submitted(sha, interval, s, Surroundings(db, e, observation)) ==
              Submitted(sha, interval, s, Surroundings(db, e, NotDue))
  {
    hide ProjectHealthReport, Decide;
  }

  ghost predicate NotAhead(s: SchedulerState, db: Db) {
    s.resume.lastSequence.Some? ==> db.checkpoint.last.Some? && s.resume.lastSequence.value <= LastSequence(db)
  }

  /** An opportunity leaves the scheduler at or behind the checkpoint it ends with. */
  lemma OpportunityNotAhead(
    sha: string -> Digest, interval: int, s: SchedulerState, e: Event, before: Db, after: Db, observation: SchedulerOutcome)
    requires IsInterval(interval) && e.Due? && NotAhead(s, before)
    requires before.checkpoint.last.Some? ==> after.checkpoint.last.Some?
    requires LastSequence(before) <= LastSequence(after)
    requires IsAccepted(observation) ==>
               match Submitted(sha, interval, s, Surroundings(before, e, NotDue))
               case None => true
               case Some(p) => after.checkpoint.last == Some(EntryOf(p))
    ensures NotAhead(RunDueOpportunity(sha, interval, s, Surroundings(before, e, observation)).state, after)
  {
    hide RunDueOpportunity, Submitted;
    RememberedAfter(sha, interval, s, Surroundings(before, e, observation));
    SubmissionIgnoresAnswer(sha, interval, s, before, e, observation);
  }

  /** An accepted answer to a new observation means that it was ingested. */
  lemma AnswerMeansIngested(sha: string -> Digest, run: Run, p: HealthProjection)
    requires Sound(CanonicalHash(sha), run.db) && ValidProjection(CanonicalHash(sha), p) && IsNew(run.db, p)
    ensures IsAccepted(OutcomeOf(I.Ingest(CanonicalHash(sha), run.db, p).result)) ==> AcceptsNew(CanonicalHash(sha), run.db, p)
  {
    hide Sound, I.Ingest, ValidProjection, IsNew, DisabledButHealthy;
    IngestionKeepsTrust(CanonicalHash(sha), run.db, p);
  }

  lemma DueInStep(sha: string -> Digest, interval: int, w: World, e: Event)
    requires DigestsAreFull(sha) && IsInterval(interval) && e.Due?
    requires InStep(CanonicalHash(sha), w)
    ensures InStep(CanonicalHash(sha), Happen(sha, interval, w, e))
  {
    hide Sound, TracksAccepted, I.Ingest, ValidProjection, IsNew, DisabledButHealthy, RunDueOpportunity, Submitted;
    hide DigestsAreFull, Submit, AcceptsNew;
    if SubmittedIn(sha, interval, w, e).None? {
      OpportunityNotAhead(sha, interval, w.state, e, w.run.db, w.run.db, NotDue);
    } else {
      var p := SubmittedIn(sha, interval, w, e).value;
      SubmittedIsNext(sha, interval, w, e);
      SubmissionInStep(CanonicalHash(sha), w.run, p);
      AnswerMeansIngested(sha, w.run, p);
      OpportunityNotAhead(
        sha, interval, w.state, e, w.run.db, Happen(sha, interval, w, e).run.db,
        Heard(CanonicalHash(sha), w.run.db, p, e.delivery));
    }
  }

  lemma CleanedInStep(hash: Hash, w: World, cutoff: int)
    requires InStep(hash, w)
    ensures InStep(hash, World(w.state, Operate(hash, w.run, CleanUp(cutoff))))
  {
    hide Sound, Cleanup, TracksAccepted;
    CleanupKeeps(hash, w.run.db, w.run.accepted, cutoff);
  }

  lemma RestartedInStep(hash: Hash, w: World, at: real)
    requires InStep(hash, w)
    ensures InStep(hash, World(Started(w.run.db, at), w.run))
  {
    hide Sound, TracksAccepted;
  }

  lemma EventInStep(sha: string -> Digest, interval: int, w: World, e: Event)
    requires DigestsAreFull(sha) && IsInterval(interval) && InStep(CanonicalHash(sha), w)
    ensures InStep(CanonicalHash(sha), Happen(sha, interval, w, e))
  {
    hide InStep, DigestsAreFull, RunDueOpportunity, Operate, Started, SubmittedIn, Submit;
    match e {
      case Due(_, _, _, _, _, _) => DueInStep(sha, interval, w, e);
      case Cleaned(cutoff) => CleanedInStep(CanonicalHash(sha), w, cutoff);
      case Restarted(at) => RestartedInStep(CanonicalHash(sha), w, at);
    }
  }

  /**
   * However the surroundings behave, the accepted observations of a single writer carry the
   * sequences 1, 2, 3 and so on, without a gap and without a repetition.
   */
  lemma {:induction false} SequencesAreContiguous(sha: string -> Digest, interval: int, monotonic: real, events: seq<Event>)
    requires DigestsAreFull(sha) && IsInterval(interval)
    ensures InStep(CanonicalHash(sha), HappenAll(sha, interval, monotonic, events))
  {
    if events == [] {
      EmptyIsSound(CanonicalHash(sha));
    } else {
      hide InStep, Happen, DigestsAreFull;
      var n := |events| - 1;
      var before := HappenAll(sha, interval, monotonic, events[..n]);
      SequencesAreContiguous(sha, interval, monotonic, events[..n]);
      EventInStep(sha, interval, before, events[n]);
    }
  }

  /** And ingestion never finds an observation of a single writer stale, conflicting or repeated. */
  lemma NeverStaleNorRepeated(sha: string -> Digest, interval: int, monotonic: real, events: seq<Event>, e: Event)
    requires DigestsAreFull(sha) && IsInterval(interval) && e.Due?
    requires e.report.Some? ==> e.report.value.Normalized()
    requires SubmittedIn(sha, interval, HappenAll(sha, interval, monotonic, events), e).Some?
    ensures var w := HappenAll(sha, interval, monotonic, events);
            var p := SubmittedIn(sha, interval, w, e).value;
            var result := I.Ingest(CanonicalHash(sha), w.run.db, p).result;
            && p.sequence == |w.run.accepted| + 1
            && (|| (result.Accepted? && result.outcome != I.Replayed)
                || result == I.Rejected(I.Rejection(I.GenerationExhausted, false)))
  {
    hide HappenAll, SubmittedIn, I.Ingest, DisabledButHealthy, ValidProjection, DigestsAreFull, Sound, TracksAccepted;
    var w := HappenAll(sha, interval, monotonic, events);
    SequencesAreContiguous(sha, interval, monotonic, events);
    LastOfTracked(CanonicalHash(sha), w.run.db, w.run.accepted);
    SubmittedIsNext(sha, interval, w, e);
    IngestionKeepsTrust(CanonicalHash(sha), w.run.db, SubmittedIn(sha, interval, w, e).value);
  }
}
