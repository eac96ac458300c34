/** The scheduler object, whose fields an opportunity updates step by step; proved against `Scheduler`. */
module SchedulerService {
  import opened Wrappers
  import opened HealthModels
  import opened Projection
  import opened Reports
  import opened Cadence
  import opened Scheduler

  class HealthHistoryScheduler {
    const sha: string -> Digest
    const interval: int
    var cadence: CadenceState
    var resume: ResumeState
    var nextSequence: Option<int>
    var startupMarkerPending: bool

    ghost predicate Valid()
      reads this
    {
      IsInterval(interval) && cadence.Valid()
    }

    ghost function State(): SchedulerState
      reads this
    {
      SchedulerState(cadence, resume, nextSequence, startupMarkerPending)
    }

    constructor (sha: string -> Digest, interval: int, resume: ResumeState, started: real)
      requires IsInterval(interval) && IsMonotonic(started)
      ensures Valid() && this.sha == sha && this.interval == interval
      ensures State() == SchedulerState(CadenceState(started, started, 0), resume, NextSequence(resume), true)
    {
      this.sha, this.interval, this.resume := sha, interval, resume;
      cadence := CadenceState(started, started, 0);
      nextSequence, startupMarkerPending := NextSequence(resume), true;
    }

    /** Reads the clock without consuming a deadline. */
    method IsDue(monotonic: Option<real>) returns (r: Option<DueDecision>)
      requires Valid()
      modifies this`cadence
      ensures Valid()
      ensures r == if monotonic.None? then None else Decide(old(cadence), monotonic.value, interval)
      ensures cadence == if r.None? then old(cadence) else old(cadence).(lastSeen := monotonic.value)
    {
      if monotonic.None? {
        return None;
      }
      r := Decide(cadence, monotonic.value, interval);
      if r.Some? {
        OwnDecisionFits(cadence, monotonic.value, interval, false, cadence.pending);
        cadence := AfterCheck(cadence, r.value, false, cadence.pending).value;
      }
    }

    method CountFailedSampling()
      requires Valid()
      modifies this`cadence
      ensures Valid() && State() == RecordFailedSampling(old(State()))
    {
      cadence := cadence.(pending := Saturated(cadence.pending + 1));
    }

    method CountAcceptedObservation(p: HealthProjection)
      requires Valid()
      modifies this
      ensures Valid() && State() == RecordAccepted(old(State()), p)
    {
      resume := ResumeState(Some(p.sequence), Some(p.observedAt), Some(p.kind), Saturated(resume.count + 1));
      nextSequence := if p.sequence == MAX_OBSERVATION_SEQUENCE then None else Some(p.sequence + 1);
      startupMarkerPending := false;
      cadence := cadence.(pending := if p.kind == ClockDiscontinuity then cadence.pending else 0);
    }

    /** `Some` is the outcome to report when the checkpoint cannot be used. */
    method RefreshResumeState(read: Result<ResumeState, SchedulerOutcome>) returns (failure: Option<SchedulerOutcome>)
      requires Valid()
      modifies this`resume, this`nextSequence
      ensures Valid()
      ensures match Refreshed(old(State()), read)
              case Success(after) => failure.None? && State() == after
              case Failure(outcome) => failure == Some(outcome) && State() == old(State())
    {
      if read.Failure? {
        return Some(read.error);
      }
      var previous, current := resume.lastSequence, read.value.lastSequence;
      if previous.Some? && (current.None? || current.value < previous.value) {
        return Some(TrustLost);
      }
      resume := read.value;
      nextSequence := NextSequence(resume);
      return None;
    }

    method RunOpportunity(o: Opportunity) returns (result: SchedulerResult)
      requires Valid()
      modifies this
      ensures Valid()
      ensures var stepped := RunDueOpportunity(sha, interval, old(State()), o);
              State() == stepped.state && result == stepped.result
    {
      hide ProjectHealthReport;
      if nextSequence.None? {
        return SchedulerResult(SequenceExhausted, None, 0);
      }
      if o.monotonic.None? {
        return SchedulerResult(InvalidClock, None, 0);
      }
      var decided := Decide(cadence, o.monotonic.value, interval);
      if decided.None? {
        return SchedulerResult(InvalidClock, None, 0);
      }
      var decision := decided.value;
      if !decision.due {
        OwnDecisionFits(cadence, o.monotonic.value, interval, false, cadence.pending);
        cadence := AfterCheck(cadence, decision, false, cadence.pending).value;
        return SchedulerResult(NotDue, None, 0);
      }
      var missed := Saturated(cadence.pending + decision.missed);
      OwnDecisionFits(cadence, o.monotonic.value, interval, true, missed);
      cadence := AfterCheck(cadence, decision, true, missed).value;
      result := RunDueSlot(o);
    }

    /** The part of an opportunity after its deadline is consumed. */
    method RunDueSlot(o: Opportunity) returns (result: SchedulerResult)
      requires Valid()
      modifies this
      ensures Valid()
      ensures var stepped := RunSlot(sha, old(State()), o);
              State() == stepped.state && result == stepped.result
    {
      hide ProjectHealthReport;
      var missed := cadence.pending;
      var failure := RefreshResumeState(o.resume);
      if failure.Some? {
        CountFailedSampling();
        return SchedulerResult(failure.value, None, missed);
      }
      if nextSequence.None? {
        return SchedulerResult(SequenceExhausted, None, 0);
      }
      var sequence := nextSequence.value;
      if o.utcNow.None? || !IsTimestamp(o.utcNow.value) {
        CountFailedSampling();
        return SchedulerResult(InvalidClock, Some(sequence), missed);
      }
      var kind := KindOfSample(o.utcNow.value);
      var reported := if kind == ClockDiscontinuity then 0 else missed;
      if o.report.None? {
        CountFailedSampling();
        return Finish(SchedulerResult(CollectionFailed, Some(sequence), reported), o.maintenance);
      }
      var projected := ProjectHealthReport(sha, o.report.value, sequence, o.utcNow.value, kind, reported);
      if projected.None? {
        CountFailedSampling();
        return Finish(SchedulerResult(ProjectionFailed, Some(sequence), reported), o.maintenance);
      }
      result := SchedulerResult(o.observation, Some(sequence), reported);
      if IsAccepted(o.observation) {
        CountAcceptedObservation(projected.value);
        if !o.maintenanceAttempted {
          result := Finish(result, o.maintenance);
        }
      } else {
        CountFailedSampling();
      }
    }

    method KindOfSample(recordedAt: int) returns (kind: SampleKind)
      ensures kind == SampleKindOf(State(), recordedAt)
    {
      if resume.lastObserved.Some? && recordedAt < resume.lastObserved.value {
        return ClockDiscontinuity;
      }
      kind := if startupMarkerPending then StartupGap else Heartbeat;
    }
  }
}
