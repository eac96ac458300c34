/** The sampling-gap phases (health_history/sampling_gap.py). */
module SamplingGap {
  import opened Wrappers
  import opened HealthModels

  datatype GapEvent =
    | NoGapEvent
    | CandidateStarted
    | CandidateCleared
    | GapOpened
    | MissRecorded
    | RecoveryStarted
    | RecoveryReset
    | GapRecovered
    | MarkerRecorded
    | DuplicateIgnored

  datatype GapObservation = GapObservation(
    sequence: int,
    missedIntervals: int,
    startupMarker: bool,
    clockMarker: bool)
  {
    predicate Valid() {
      && 0 <= sequence <= MAX_TIMESTAMP_US
      && 0 <= missedIntervals
      && !(startupMarker && clockMarker)
    }
  }

  datatype GapState = GapState(
    phase: SamplingGapPhase,
    committed: int,
    largestMiss: int,
    lastSequence: Option<int>)
  {
    predicate Valid() {
      && IsCounter(committed)
      && IsCounter(largestMiss)
      && (lastSequence.Some? ==> IsTimestamp(lastSequence.value))
    }
  }

  datatype GapTransition = GapTransition(state: GapState, event: GapEvent)

  /** A persisted observation whose collection succeeded, which is all that ingestion submits. */
  function EvaluateSamplingGap(state: GapState, observation: GapObservation): (t: GapTransition)
    requires state.Valid() && observation.Valid()
    ensures t.state.Valid()
  {
    if state.lastSequence.Some? && observation.sequence <= state.lastSequence.value then
      GapTransition(state, DuplicateIgnored)
    else
      var committed := state.(
        committed := Saturated(state.committed + 1),
        lastSequence := Some(observation.sequence));
      if observation.clockMarker then
        if state.phase == RecoveryOne then
          GapTransition(committed.(phase := Active), RecoveryReset)
        else
          GapTransition(committed, MarkerRecorded)
      else if observation.startupMarker && observation.missedIntervals == 0 then
        GapTransition(committed, MarkerRecorded)
      else if observation.missedIntervals > 0 then
        ApplyMisses(state, committed, observation.missedIntervals)
      else
        match state.phase
        case CandidateOne => GapTransition(committed.(phase := Clear), CandidateCleared)
        case Active => GapTransition(committed.(phase := RecoveryOne), RecoveryStarted)
        case RecoveryOne => GapTransition(committed.(phase := Clear), GapRecovered)
        case Clear => GapTransition(committed, NoGapEvent)
  }

  function ApplyMisses(previous: GapState, committed: GapState, missed: int): (t: GapTransition)
    requires previous.Valid() && committed.Valid() && missed > 0
    ensures t.state.Valid()
  {
    var updated := committed.(
      largestMiss := Max(previous.largestMiss, Saturated(missed)));
    if previous.phase == Active || previous.phase == RecoveryOne then
      GapTransition(
        updated.(phase := Active),
        if previous.phase == RecoveryOne then RecoveryReset else MissRecorded)
    else if missed >= 2 then
      GapTransition(updated.(phase := Active), GapOpened)
    else if previous.phase == CandidateOne then
      GapTransition(updated, MissRecorded)
    else
      GapTransition(updated.(phase := CandidateOne), CandidateStarted)
  }

  /** A gap is under way, or it has seen one clean observation since. */
  predicate GapUnderWay(phase: SamplingGapPhase) {
    phase == Active || phase == RecoveryOne
  }

  /** Only an opening starts a gap and only a second clean observation in a row ends it. */
  lemma GapStartsAndEnds(state: GapState, observation: GapObservation)
    requires state.Valid() && observation.Valid()
    ensures var t := EvaluateSamplingGap(state, observation);
            && (t.event == GapOpened <==> !GapUnderWay(state.phase) && GapUnderWay(t.state.phase))
            && (t.event == GapRecovered <==> GapUnderWay(state.phase) && !GapUnderWay(t.state.phase))
            && (t.event == GapRecovered ==> state.phase == RecoveryOne)
            && (t.event == GapOpened ==> observation.missedIntervals >= 2)
  {
  }
}
