/** Runs of the scheduler whose surroundings answer anything: no cadence slot is counted twice or disappears. */
module SchedulerRuns {
  import opened Wrappers
  import opened HealthModels
  import opened Projection
  import opened Reports
  import opened Cadence
  import opened Scheduler

  /** A run so far: where it stands, what it recorded, and the slots it used up, lost, and forgot. */
  datatype SlotRun = SlotRun(state: SchedulerState, accepted: seq<HealthProjection>, used: nat, lost: nat, forgotten: nat)

  function AfterOne(sha: string -> Digest, interval: int, run: SlotRun, o: Opportunity): SlotRun
    requires IsInterval(interval)
  {
    var stepped := RunDueOpportunity(sha, interval, run.state, o);
    SlotRun(
      stepped.state,
      if stepped.accepted.Some? then run.accepted + [stepped.accepted.value] else run.accepted,
      run.used + SlotsUsed(interval, run.state, o),
      run.lost + (if FoundExhausted(interval, run.state, o) then 1 else 0),
      run.forgotten + Forgotten(interval, run.state, o, Failed(sha, interval, run.state, o)))
  }

  function AfterAll(sha: string -> Digest, interval: int, start: SchedulerState, opportunities: seq<Opportunity>): SlotRun
    requires IsInterval(interval)
  {
    if opportunities == [] then SlotRun(start, [], 0, 0, 0)
    else
      var n := |opportunities| - 1;
      AfterOne(sha, interval, AfterAll(sha, interval, start, opportunities[..n]), opportunities[n])
  }

  function MissedIn(accepted: seq<HealthProjection>): int {
    if accepted == [] then 0
    else MissedIn(accepted[..|accepted| - 1]) + accepted[|accepted| - 1].missedIntervals
  }

  lemma GridSteps(planned: real, a: int, b: int, interval: int)
    ensures Deadline(Deadline(planned, a, interval), b, interval) == Deadline(planned, a + b, interval)
  {
    var i := interval as real;
    assert a as real * i + b as real * i == (a + b) as real * i;
  }

  lemma OneIsConserved(sha: string -> Digest, interval: int, run: SlotRun, o: Opportunity)
    requires IsInterval(interval) && run.state.cadence.Valid()
    requires run.state.next.Some? ==> run.lost == 0
    ensures var after := AfterOne(sha, interval, run, o);
            && after.state.cadence.Valid()
            && |after.accepted| + MissedIn(after.accepted) + after.state.cadence.pending + after.lost + after.forgotten ==
                 |run.accepted| + MissedIn(run.accepted) + run.state.cadence.pending + run.lost + run.forgotten
                 + after.used - run.used
            && after.state.cadence.planned == Deadline(run.state.cadence.planned, after.used - run.used, interval)
            && (after.state.next.Some? ==> after.lost == 0)
            && (run.lost <= 1 ==> after.lost <= 1)
            && MissedIn(after.accepted) >= MissedIn(run.accepted) && after.used >= run.used
            && (run.state.cadence.pending + after.used - run.used <= MAX_BOUNDED_COUNTER ==> after.forgotten == run.forgotten)
  {
    hide RunDueOpportunity, Decide, Elapsed;
    OpportunityIsAccounted(sha, interval, run.state, o);
    ExhaustionIsFinal(sha, interval, run.state, o);
    var stepped := RunDueOpportunity(sha, interval, run.state, o);
    if stepped.accepted.Some? {
      assert (run.accepted + [stepped.accepted.value])[..|run.accepted|] == run.accepted;
    }
  }

  lemma ExhaustionIsFinal(sha: string -> Digest, interval: int, s: SchedulerState, o: Opportunity)
    requires IsInterval(interval)
    ensures FoundExhausted(interval, s, o) ==> s.next.Some? && RunDueOpportunity(sha, interval, s, o).state.next.None?
    ensures s.next.None? ==> RunDueOpportunity(sha, interval, s, o).state == s
  {
    hide ProjectHealthReport;
  }

  /**
   * Over every run, failures and clock discontinuities included: the cadence slots used up are
   * the accepted observations, the missed intervals those report, and the missed intervals still
   * pending.  A slot is lost at most once, when all sequences turn out to be used up, and slots are
   * forgotten only where the pending count would exceed its bound.
   */
  lemma {:induction false} SlotsAreConserved(
    sha: string -> Digest, interval: int, start: SchedulerState, opportunities: seq<Opportunity>)
    requires IsInterval(interval) && start.cadence.Valid()
    ensures var run := AfterAll(sha, interval, start, opportunities);
            && run.state.cadence.Valid()
            && start.cadence.pending + run.used ==
                 |run.accepted| + MissedIn(run.accepted) + run.state.cadence.pending + run.lost + run.forgotten
            && run.state.cadence.planned == Deadline(start.cadence.planned, run.used, interval)
            && (run.state.next.Some? ==> run.lost == 0)
            && run.lost <= 1 && MissedIn(run.accepted) >= 0
            && (start.cadence.pending + run.used <= MAX_BOUNDED_COUNTER ==> run.forgotten == 0)
  {
    hide AfterOne;
    if opportunities == [] {
      GridSteps(start.cadence.planned, 0, 0, interval);
    } else {
      var n := |opportunities| - 1;
      var before := AfterAll(sha, interval, start, opportunities[..n]);
      SlotsAreConserved(sha, interval, start, opportunities[..n]);
      OneIsConserved(sha, interval, before, opportunities[n]);
      GridSteps(start.cadence.planned, before.used, AfterAll(sha, interval, start, opportunities).used - before.used, interval);
    }
  }

  // ---------- Markers ----------

  /** The startup marker is pending until something is accepted, and only the first accepted observation can be one. */
  ghost predicate MarkersFit(start: SchedulerState, run: SlotRun) {
    && (run.state.startupPending <==> start.startupPending && run.accepted == [])
    && forall i :: 0 <= i < |run.accepted| ==>
         run.accepted[i].kind == ClockDiscontinuity
         || run.accepted[i].kind == if i == 0 && start.startupPending then StartupGap else Heartbeat
  }

  lemma MarkersStayFit(sha: string -> Digest, interval: int, start: SchedulerState, run: SlotRun, o: Opportunity)
    requires IsInterval(interval) && MarkersFit(start, run)
    ensures MarkersFit(start, AfterOne(sha, interval, run, o))
  {
    hide Decide, ProjectHealthReport;
    var stepped := RunDueOpportunity(sha, interval, run.state, o);
    if stepped.accepted.Some? {
      AcceptedWasSubmitted(sha, interval, run.state, o);
      var kind, missed := SubmittedParts(sha, interval, run.state, o);
      ProjectedKind(sha, o.report.value, NextSequence(o.resume.value).value, o.utcNow.value, kind, missed);
    }
  }

  lemma AcceptedWasSubmitted(sha: string -> Digest, interval: int, s: SchedulerState, o: Opportunity)
    requires IsInterval(interval) && RunDueOpportunity(sha, interval, s, o).accepted.Some?
    ensures RunDueOpportunity(sha, interval, s, o).accepted == Submitted(sha, interval, s, o)
  {
    hide ProjectHealthReport, Decide;
  }

  lemma ProjectedKind(sha: string -> Digest, report: Report, sequence: int, now: int, kind: SampleKind, missed: int)
    ensures var p := ProjectHealthReport(sha, report, sequence, now, kind, missed); p.Some? ==> p.value.kind == kind
  {
    hide WellFormed, CanonicalText;
  }

  /**
   * Over every run of a scheduler that starts: the first accepted observation is the startup marker, unless the
   * clock went back, and every later one is a heartbeat, unless the clock went back.
   */
  lemma {:induction false} MarkersOverRun(
    sha: string -> Digest, interval: int, start: SchedulerState, opportunities: seq<Opportunity>)
    requires IsInterval(interval)
    ensures MarkersFit(start, AfterAll(sha, interval, start, opportunities))
  {
    hide AfterOne;
    if opportunities != [] {
      var n := |opportunities| - 1;
      MarkersOverRun(sha, interval, start, opportunities[..n]);
      MarkersStayFit(sha, interval, start, AfterAll(sha, interval, start, opportunities[..n]), opportunities[n]);
    }
  }
}
