/**
 * The cadence slots of a single writer, counted against what its database accepted: restarts, lost
 * observations and lost answers included.
 */
module WriterSlots {
  import opened Wrappers
  import opened HealthModels
  import opened Projection
  import I = Ingestion
  import opened IngestionSafety
  import opened IngestionRuns
  import opened Reports
  import opened Cadence
  import opened Scheduler
  import opened SchedulerRuns
  import opened SingleWriter

  /**
   * A run and its slots: those used up; those counted twice, because an accepted observation reported
   * them and the scheduler, which never heard of that, keeps them pending; and those dropped.
   */
  datatype Account = Account(world: World, used: int, twice: int, dropped: int)

  /** The database took the observation, and the answer was lost. */
  predicate TakenUnheard(sha: string -> Digest, interval: int, w: World, e: Event)
    requires IsInterval(interval) && e.Due?
  {
    && e.delivery.AnswerLost?
    && SubmittedIn(sha, interval, w, e).Some?
    && AcceptsNew(CanonicalHash(sha), w.run.db, SubmittedIn(sha, interval, w, e).value)
  }

  /** A restart drops what is pending; an opportunity drops a slot without a sequence and what exceeds the bound. */
  function Charge(sha: string -> Digest, interval: int, a: Account, e: Event): Account
    requires IsInterval(interval)
  {
    var s, after := a.world.state, Happen(sha, interval, a.world, e);
    match e
    case Cleaned(_) => a.(world := after)
    case Restarted(_) => a.(world := after, dropped := a.dropped + s.cadence.pending)
    case Due(_, _, _, _, _, _) =>
      var o := Faced(sha, interval, a.world, e);
      Account(
        after,
        a.used + SlotsUsed(interval, s, o),
        a.twice + (if TakenUnheard(sha, interval, a.world, e)
                   then Recorded(SubmittedIn(sha, interval, a.world, e)) else 0),
        a.dropped + (if FoundExhausted(interval, s, o) then 1 else 0)
          + Forgotten(interval, s, o, Failed(sha, interval, s, o)))
  }

  function ChargeAll(sha: string -> Digest, interval: int, monotonic: real, events: seq<Event>): Account
    requires IsInterval(interval)
  {
    if events == [] then Account(HappenAll(sha, interval, monotonic, []), 0, 0, 0)
    else
      var n := |events| - 1;
      Charge(sha, interval, ChargeAll(sha, interval, monotonic, events[..n]), events[n])
  }

  function RecordedIn(accepted: seq<HealthProjection>): int {
    |accepted| + MissedIn(accepted)
  }

  ghost predicate Balanced(a: Account) {
    && IsCounter(a.world.state.cadence.pending)
    && RecordedIn(a.world.run.accepted) + a.world.state.cadence.pending + a.dropped == a.used + a.twice
  }

  lemma OneMoreRecorded(accepted: seq<HealthProjection>, p: HealthProjection)
    ensures RecordedIn(accepted + [p]) == RecordedIn(accepted) + Recorded(Some(p))
  {
    assert (accepted + [p])[..|accepted|] == accepted;
  }

  /** The scheduler counts an observation exactly if the database took it and the answer arrived. */
  lemma HeardExactly(sha: string -> Digest, interval: int, w: World, e: Event)
    requires DigestsAreFull(sha) && IsInterval(interval) && e.Due? && InStep(CanonicalHash(sha), w)
    ensures var p := SubmittedIn(sha, interval, w, e);
            RunDueOpportunity(sha, interval, w.state, Faced(sha, interval, w, e)).accepted ==
              if p.Some? && e.delivery.Answered? && AcceptsNew(CanonicalHash(sha), w.run.db, p.value) then p else None
  {
    hide InStep, DigestsAreFull, RunDueOpportunity, Submitted, I.Ingest;
    var p, o := SubmittedIn(sha, interval, w, e), Faced(sha, interval, w, e);
    SubmissionIgnoresAnswer(sha, interval, w.state, w.run.db, e, o.observation);
    AcceptedExactly(sha, interval, w.state, o);
    if p.Some? {
      AcceptedIsHeard(sha, interval, w, e);
    }
  }

  lemma AcceptedExactly(sha: string -> Digest, interval: int, s: SchedulerState, o: Opportunity)
    requires IsInterval(interval)
    ensures RunDueOpportunity(sha, interval, s, o).accepted ==
              if IsAccepted(o.observation) then Submitted(sha, interval, s, o) else None
  {
    hide ProjectHealthReport, Decide;
  }

  lemma AcceptedIsHeard(sha: string -> Digest, interval: int, w: World, e: Event)
    requires DigestsAreFull(sha) && IsInterval(interval) && e.Due? && InStep(CanonicalHash(sha), w)
    requires SubmittedIn(sha, interval, w, e).Some?
    ensures var p := SubmittedIn(sha, interval, w, e).value;
            IsAccepted(OutcomeOf(I.Ingest(CanonicalHash(sha), w.run.db, p).result)) <==>
              AcceptsNew(CanonicalHash(sha), w.run.db, p)
  {
    hide DigestsAreFull, Submitted, I.Ingest, Sound, ValidProjection, IsNew, DisabledButHealthy;
    SubmittedIsNext(sha, interval, w, e);
    AnswerMeansIngested(sha, w.run, SubmittedIn(sha, interval, w, e).value);
  }

  lemma DueIsBalanced(sha: string -> Digest, interval: int, a: Account, e: Event)
    requires DigestsAreFull(sha) && IsInterval(interval) && e.Due?
    requires InStep(CanonicalHash(sha), a.world) && Balanced(a)
    ensures Balanced(Charge(sha, interval, a, e))
  {
    hide InStep, DigestsAreFull, RunDueOpportunity, SubmittedIn, Faced, I.Ingest, Forgotten, Failed, FoundExhausted, SlotsUsed,
      Recorded, RecordedIn;
    var p := SubmittedIn(sha, interval, a.world, e);
    HeardExactly(sha, interval, a.world, e);
    OpportunityIsAccounted(sha, interval, a.world.state, Faced(sha, interval, a.world, e));
    NothingRecorded();
    if p.Some? {
      OneMoreRecorded(a.world.run.accepted, p.value);
    }
  }

  lemma NothingRecorded()
    ensures Recorded(None) == 0
  {
  }

  /**
   * However the surroundings behave: the slots used up, and those counted twice, are the
   * observations that the database accepted, the missed intervals those report, the ones pending
   * and the ones dropped.  Only the accepted observations whose answer was lost count twice.
   */
  lemma {:induction false} WriterSlotsAreConserved(sha: string -> Digest, interval: int, monotonic: real, events: seq<Event>)
    requires DigestsAreFull(sha) && IsInterval(interval)
    ensures ChargeAll(sha, interval, monotonic, events).world == HappenAll(sha, interval, monotonic, events)
    ensures Balanced(ChargeAll(sha, interval, monotonic, events))
  {
    if events == [] {
      StartIsBalanced(sha, interval, monotonic);
    } else {
      hide Charge, Balanced, DigestsAreFull;
      var n := |events| - 1;
      WriterSlotsAreConserved(sha, interval, monotonic, events[..n]);
      SequencesAreContiguous(sha, interval, monotonic, events[..n]);
      EventIsBalanced(sha, interval, ChargeAll(sha, interval, monotonic, events[..n]), events[n]);
    }
  }

  lemma StartIsBalanced(sha: string -> Digest, interval: int, monotonic: real)
    requires IsInterval(interval)
    ensures Balanced(Account(HappenAll(sha, interval, monotonic, []), 0, 0, 0))
  {
  }

  lemma EventIsBalanced(sha: string -> Digest, interval: int, a: Account, e: Event)
    requires DigestsAreFull(sha) && IsInterval(interval)
    requires InStep(CanonicalHash(sha), a.world) && Balanced(a)
    ensures Charge(sha, interval, a, e).world == Happen(sha, interval, a.world, e)
    ensures Balanced(Charge(sha, interval, a, e))
  {
    hide InStep, DigestsAreFull, RunDueOpportunity, Submitted, I.Ingest, RecordedIn;
    if e.Due? {
      DueIsBalanced(sha, interval, a, e);
    }
  }
}
