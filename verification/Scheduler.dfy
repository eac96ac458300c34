/** The sampling scheduler (health_history/scheduler.py): one due opportunity as a function of its state. */
module Scheduler {
  import opened Wrappers
  import opened HealthModels
  import opened Projection
  import opened HistoryTables
  import opened Reports
  import opened Cadence

  datatype SchedulerOutcome =
    | NotDue
    | Stored
    | StateOnlyStored
    | ReplayedStored
    | CollectionFailed
    | ProjectionFailed
    | SequenceExhausted
    | InvalidClock
    | InvalidObservation
    | StaleObservation
    | ConflictingObservation
    | AlertGenerationsExhausted
    | StorageUnavailable
    | PersistenceFailed
    | TrustLost
    | CheckpointBusy
    | CapacityBlocked
    | TimedOutStorage

  /** The checkpoint as the scheduler remembers it. */
  datatype ResumeState = ResumeState(lastSequence: Option<int>, lastObserved: Option<int>, lastKind: Option<SampleKind>, count: int)

  function NextSequence(resume: ResumeState): Option<int> {
    match resume.lastSequence
    case None => Some(1)
    case Some(sequence) => if sequence == MAX_OBSERVATION_SEQUENCE then None else Some(sequence + 1)
  }

  datatype SchedulerState = SchedulerState(
    cadence: CadenceState,
    resume: ResumeState,
    next: Option<int>,
    startupPending: bool)

  /** What the maintenance that follows an observation does to the reported outcome. */
  datatype Maintenance = MaintenanceFine | MaintenanceReports(outcome: SchedulerOutcome)

  /** What the surroundings answer during one opportunity; any answer is possible. */
  datatype Opportunity = Opportunity(
    monotonic: Option<real>,
    resume: Result<ResumeState, SchedulerOutcome>,
    utcNow: Option<int>,
    report: Option<Report>,
    observation: SchedulerOutcome,
    maintenanceAttempted: bool,
    maintenance: Maintenance)

  datatype SchedulerResult = SchedulerResult(outcome: SchedulerOutcome, sequence: Option<int>, missed: int)

  /** The state after an opportunity, its result, and the observation it recorded as accepted. */
  datatype Stepped = Stepped(state: SchedulerState, result: SchedulerResult, accepted: Option<HealthProjection>)

  predicate IsAccepted(outcome: SchedulerOutcome) {
    outcome == Stored || outcome == StateOnlyStored || outcome == ReplayedStored
  }

  function WithPending(s: SchedulerState, pending: int): SchedulerState {
    s.(cadence := s.cadence.(pending := pending))
  }

  function RecordFailedSampling(s: SchedulerState): SchedulerState {
    WithPending(s, Saturated(s.cadence.pending + 1))
  }

  function RecordAccepted(s: SchedulerState, p: HealthProjection): SchedulerState {
    SchedulerState(
      s.cadence.(pending := if p.kind == ClockDiscontinuity then s.cadence.pending else 0),
      ResumeState(Some(p.sequence), Some(p.observedAt), Some(p.kind), Saturated(s.resume.count + 1)),
      if p.sequence == MAX_OBSERVATION_SEQUENCE then None else Some(p.sequence + 1),
      false)
  }

  /** The checkpoint must not have gone back; `Failure` is the outcome that is reported then. */
  function Refreshed(s: SchedulerState, read: Result<ResumeState, SchedulerOutcome>): Result<SchedulerState, SchedulerOutcome> {
    var resume :- read;
    var previous, current := s.resume.lastSequence, resume.lastSequence;
    if previous.Some? && (current.None? || current.value < previous.value) then Failure(TrustLost)
    else Success(s.(resume := resume, next := NextSequence(resume)))
  }

  function SampleKindOf(s: SchedulerState, recordedAt: int): SampleKind {
    if s.resume.lastObserved.Some? && recordedAt < s.resume.lastObserved.value then ClockDiscontinuity
    else if s.startupPending then StartupGap
    else Heartbeat
  }

  function Finish(result: SchedulerResult, maintenance: Maintenance): SchedulerResult {
    match maintenance
    case MaintenanceFine => result
    case MaintenanceReports(outcome) => result.(outcome := outcome)
  }

  /** What a due slot would submit, if it gets that far; `s` is the state after the refresh. */
  function Attempt(sha: string -> Digest, s: SchedulerState, o: Opportunity): Option<HealthProjection>
    requires s.next.Some?
  {
    if o.utcNow.None? || !IsTimestamp(o.utcNow.value) || o.report.None? then None
    else
      var kind := SampleKindOf(s, o.utcNow.value);
      ProjectHealthReport(sha, o.report.value, s.next.value, o.utcNow.value, kind, ReportedMisses(s, kind))
  }

  /** A clock discontinuity reports no misses; they stay pending. */
  function ReportedMisses(s: SchedulerState, kind: SampleKind): int {
    if kind == ClockDiscontinuity then 0 else s.cadence.pending
  }

  /** A due slot: its deadline is consumed already and the missed deadlines are pending. */
  function RunSlot(sha: string -> Digest, s: SchedulerState, o: Opportunity): Stepped {
    match Refreshed(s, o.resume)
    case Failure(outcome) => Stepped(RecordFailedSampling(s), SchedulerResult(outcome, None, s.cadence.pending), None)
    case Success(renewed) =>
      if renewed.next.None? then Stepped(renewed, SchedulerResult(SequenceExhausted, None, 0), None)
      else if o.utcNow.None? || !IsTimestamp(o.utcNow.value) then
        Stepped(RecordFailedSampling(renewed), SchedulerResult(InvalidClock, renewed.next, s.cadence.pending), None)
      else
        var reported := ReportedMisses(renewed, SampleKindOf(renewed, o.utcNow.value));
        match Attempt(sha, renewed, o)
        case None =>
          var outcome := if o.report.None? then CollectionFailed else ProjectionFailed;
          Stepped(
            RecordFailedSampling(renewed),
            Finish(SchedulerResult(outcome, renewed.next, reported), o.maintenance), None)
        case Some(p) =>
          var result := SchedulerResult(o.observation, renewed.next, reported);
          if IsAccepted(o.observation) then
            Stepped(
              RecordAccepted(renewed, p),
              if o.maintenanceAttempted then result else Finish(result, o.maintenance),
              Some(p))
          else
            Stepped(RecordFailedSampling(renewed), result, None)
  }

  /** The state in which a due slot runs: its deadline is used up, and the misses before it are pending. */
  function SlotState(interval: int, s: SchedulerState, o: Opportunity): Option<SchedulerState>
    requires IsInterval(interval)
  {
    if s.next.None? || o.monotonic.None? then None
    else
      match Decide(s.cadence, o.monotonic.value, interval)
      case Some(DueDecision(true, missed, checked, next)) =>
        Some(s.(cadence := CadenceState(next, checked, Saturated(s.cadence.pending + missed))))
      case _ => None
  }

  /** What an opportunity hands to the orchestrator, if anything. */
  function Submitted(sha: string -> Digest, interval: int, s: SchedulerState, o: Opportunity): Option<HealthProjection>
    requires IsInterval(interval)
  {
    match SlotState(interval, s, o)
    case None => None
    case Some(slot) =>
      match Refreshed(slot, o.resume)
      case Success(renewed) => if renewed.next.None? then None else Attempt(sha, renewed, o)
      case Failure(_) => None
  }

  /** The clock shows a time before the newest accepted observation. */
  predicate WentBack(o: Opportunity)
    requires o.resume.Success? && o.utcNow.Some?
  {
    o.resume.value.lastObserved.Some? && o.utcNow.value < o.resume.value.lastObserved.value
  }

  /**
   * A submitted observation was read, is dated, and carries the sequence after the checkpoint just read.  It is a
   * clock discontinuity if the clock went back, else a startup marker if none was recorded yet, else a heartbeat;
   * a discontinuity reports no misses, the others all that are pending.
   */
  lemma SubmittedParts(sha: string -> Digest, interval: int, s: SchedulerState, o: Opportunity)
    returns (kind: SampleKind, missed: int)
    requires IsInterval(interval) && Submitted(sha, interval, s, o).Some?
    ensures o.report.Some? && o.utcNow.Some? && o.resume.Success? && NextSequence(o.resume.value).Some?
    ensures Submitted(sha, interval, s, o) ==
              ProjectHealthReport(sha, o.report.value, NextSequence(o.resume.value).value, o.utcNow.value, kind, missed)
    ensures kind == ClockDiscontinuity <==> WentBack(o)
    ensures kind == StartupGap <==> !WentBack(o) && s.startupPending
    ensures kind == Heartbeat <==> !WentBack(o) && !s.startupPending
    ensures SlotState(interval, s, o).Some?
    ensures missed == if WentBack(o) then 0 else SlotState(interval, s, o).value.cadence.pending
  {
    hide ProjectHealthReport, Decide;
    var renewed := Refreshed(SlotState(interval, s, o).value, o.resume).value;
    kind := SampleKindOf(renewed, o.utcNow.value);
    missed := ReportedMisses(renewed, kind);
  }

  function RunDueOpportunity(sha: string -> Digest, interval: int, s: SchedulerState, o: Opportunity): Stepped
    requires IsInterval(interval)
  {
    if s.next.None? then Stepped(s, SchedulerResult(SequenceExhausted, None, 0), None)
    else if o.monotonic.None? then Stepped(s, SchedulerResult(InvalidClock, None, 0), None)
    else
      match Decide(s.cadence, o.monotonic.value, interval)
      case None => Stepped(s, SchedulerResult(InvalidClock, None, 0), None)
      case Some(decision) =>
        if !decision.due then
          Stepped(s.(cadence := s.cadence.(lastSeen := decision.checked)), SchedulerResult(NotDue, None, 0), None)
        else
          var pending := Saturated(s.cadence.pending + decision.missed);
          RunSlot(sha, s.(cadence := CadenceState(decision.next, decision.checked, pending)), o)
  }

  // ---------- What becomes of a due slot ----------

  /** The checkpoint just read is behind the one that the scheduler knows. */
  predicate CheckpointFellBack(s: SchedulerState, resume: ResumeState) {
    s.resume.lastSequence.Some? && (resume.lastSequence.None? || resume.lastSequence.value < s.resume.lastSequence.value)
  }

  /** Everything that a due slot needs in order to submit is there. */
  predicate CanSubmit(s: SchedulerState, o: Opportunity) {
    && o.resume.Success? && !CheckpointFellBack(s, o.resume.value)
    && o.resume.value.lastSequence != Some(MAX_OBSERVATION_SEQUENCE)
    && o.utcNow.Some? && IsTimestamp(o.utcNow.value) && o.report.Some?
  }

  /** What a due slot has to submit: the next sequence, now, marked as the clocks and the start demand. */
  function ToSubmit(sha: string -> Digest, slot: SchedulerState, o: Opportunity): Option<HealthProjection>
    requires CanSubmit(slot, o)
  {
    var last := o.resume.value.lastSequence;
    ProjectHealthReport(
      sha, o.report.value, if last.None? then 1 else last.value + 1, o.utcNow.value,
      if WentBack(o) then ClockDiscontinuity else if slot.startupPending then StartupGap else Heartbeat,
      if WentBack(o) then 0 else slot.cadence.pending)
  }

  /**
   * A due slot submits exactly what it has to, if it can.  What it submits is recorded exactly if the answer
   * says that it was accepted, and the result names the sequence and the misses that were submitted.
   */
  lemma SlotSubmits(sha: string -> Digest, interval: int, s: SchedulerState, o: Opportunity)
    requires IsInterval(interval) && SlotState(interval, s, o).Some?
    ensures var slot, submitted, after :=
              SlotState(interval, s, o).value, Submitted(sha, interval, s, o), RunDueOpportunity(sha, interval, s, o);
            && submitted == (if CanSubmit(slot, o) then ToSubmit(sha, slot, o) else None)
            && after.accepted == (if o.observation in {Stored, StateOnlyStored, ReplayedStored} then submitted else None)
            && (submitted.Some? ==>
                  && after.result.sequence == Some(submitted.value.sequence)
                  && after.result.missed == submitted.value.missedIntervals
                  && (after.accepted.None? || o.maintenanceAttempted || o.maintenance.MaintenanceFine? ==>
                        after.result.outcome == o.observation))
            && (submitted.None? ==> !IsAccepted(after.result.outcome) || MayReport(o))
  {
    hide WellFormed, CanonicalText, Decide;
  }

  /** The surroundings themselves report an accepted outcome where none is due. */
  predicate MayReport(o: Opportunity) {
    || (o.resume.Failure? && IsAccepted(o.resume.error))
    || (o.maintenance.MaintenanceReports? && IsAccepted(o.maintenance.outcome))
  }

  // ---------- Slots ----------

  /** How many deadlines of the grid an opportunity uses up: the one it serves and all missed before it. */
  function SlotsUsed(interval: int, s: SchedulerState, o: Opportunity): nat
    requires IsInterval(interval)
  {
    if s.next.None? || o.monotonic.None? then 0
    else
      match Decide(s.cadence, o.monotonic.value, interval)
      case Some(DueDecision(true, _, _, _)) => Elapsed(s.cadence.planned, o.monotonic.value, interval) + 1
      case _ => 0
  }

  function Recorded(accepted: Option<HealthProjection>): int {
    match accepted
    case None => 0
    case Some(p) => 1 + p.missedIntervals
  }

  /** A due slot found that another writer had used up all sequences. */
  predicate FoundExhausted(interval: int, s: SchedulerState, o: Opportunity)
    requires IsInterval(interval)
  {
    && SlotsUsed(interval, s, o) > 0
    && Refreshed(s, o.resume).Success? && Refreshed(s, o.resume).value.next.None?
  }

  /**
   * The slots that an opportunity forgets because the pending count sticks at its bound: what exceeds
   * the bound, where the slot now due counts too if it failed.
   */
  function Forgotten(interval: int, s: SchedulerState, o: Opportunity, failed: bool): nat
    requires IsInterval(interval)
  {
    if SlotsUsed(interval, s, o) == 0 then 0
    else Max(0, s.cadence.pending + SlotsUsed(interval, s, o) - (if failed then 0 else 1) - MAX_BOUNDED_COUNTER)
  }

  /** A due slot without an accepted observation that was not the one to find the sequences used up. */
  predicate Failed(sha: string -> Digest, interval: int, s: SchedulerState, o: Opportunity)
    requires IsInterval(interval)
  {
    !FoundExhausted(interval, s, o) && RunDueOpportunity(sha, interval, s, o).accepted.None?
  }

  lemma SlotIsAccounted(sha: string -> Digest, s: SchedulerState, o: Opportunity)
    requires IsCounter(s.cadence.pending)
    ensures var after := RunSlot(sha, s, o);
            && after.state.cadence == s.cadence.(pending := after.state.cadence.pending)
            && IsCounter(after.state.cadence.pending)
            && (after.accepted.Some? ==> after.accepted.value.missedIntervals >= 0)
            && (if Refreshed(s, o.resume).Success? && Refreshed(s, o.resume).value.next.None?
                then after.accepted.None? && after.state.cadence.pending == s.cadence.pending
                else if after.accepted.None? then after.state.cadence.pending == Saturated(s.cadence.pending + 1)
                else 1 + s.cadence.pending == Recorded(after.accepted) + after.state.cadence.pending)
  {
    hide WellFormed, CanonicalText;
  }

  /**
   * One opportunity: the next deadline moves along the grid by the slots used, and every slot is
   * an accepted observation, a missed interval that an accepted observation reports, or a missed
   * interval still pending.  Only a slot that finds all sequences used up is lost, and only what
   * exceeds the bound of the pending count is forgotten.
   */
  lemma OpportunityIsAccounted(sha: string -> Digest, interval: int, s: SchedulerState, o: Opportunity)
    requires IsInterval(interval) && IsCounter(s.cadence.pending)
    ensures var after, used := RunDueOpportunity(sha, interval, s, o), SlotsUsed(interval, s, o);
            && IsCounter(after.state.cadence.pending)
            && (after.accepted.Some? ==> after.accepted.value.missedIntervals >= 0)
            && (s.cadence.Valid() ==> after.state.cadence.Valid())
            && after.state.cadence.planned == Deadline(s.cadence.planned, used, interval)
            && (used > 0 ==> after.state.cadence.planned > after.state.cadence.lastSeen)
            && s.cadence.pending + used ==
                 Recorded(after.accepted) + after.state.cadence.pending
                 + (if FoundExhausted(interval, s, o) then 1 else 0)
                 + Forgotten(interval, s, o, Failed(sha, interval, s, o))
  {
    hide RunSlot;
    if SlotsUsed(interval, s, o) > 0 {
      var decision := Decide(s.cadence, o.monotonic.value, interval).value;
      var slot := s.(cadence := CadenceState(decision.next, decision.checked, Saturated(s.cadence.pending + decision.missed)));
      SlotIsAccounted(sha, slot, o);
    }
  }
}
