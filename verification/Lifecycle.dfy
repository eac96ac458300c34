/** The automatic alert lifecycle (health_history/lifecycle.py). */
module Lifecycle {
  import opened Wrappers
  import opened HealthModels

  const ALERT_COOLDOWN_US: int := 15 * 60 * 1_000_000

  datatype AlertState = AlertState(
    scope: AlertScope,
    kind: AlertKind,
    lifecycle: AlertLifecycle,
    generation: int,
    occurrences: int,
    cooldownUntil: int,
    recoveredAt: Option<int>)
  {
    /** What the constructor of the state accepts. */
    predicate Valid() {
      && 1 <= generation <= MAX_BOUNDED_COUNTER
      && 1 <= occurrences <= MAX_BOUNDED_COUNTER
      && IsTimestamp(cooldownUntil)
      && (recoveredAt.Some? ==> IsTimestamp(recoveredAt.value))
      && (IsTerminal(lifecycle) <==> recoveredAt.Some?)
      && PairFits(scope, kind)
    }
  }

  datatype AlertOperation = OpenAlert | RecoverAlert | ArchiveAlert | EscalateAlert

  /** A request that is to be persisted; the escalation target is always `UnavailableAlert`. */
  datatype AlertRequest = AlertRequest(
    operation: AlertOperation,
    scope: AlertScope,
    kind: AlertKind,
    now: int)
  {
    predicate Valid() {
      PairFits(scope, kind) && IsTimestamp(now)
    }
  }

  datatype AlertOutcome = Applied | Idempotent | RefusedOutcome

  datatype AlertTransition = AlertTransition(
    previous: Option<AlertState>,
    state: Option<AlertState>,
    created: Option<AlertState>,
    event: Option<LifecycleEvent>,
    outcome: AlertOutcome)

  function Deadline(now: int): int {
    Min(now + ALERT_COOLDOWN_US, MAX_TIMESTAMP_US)
  }

  function NewAlert(scope: AlertScope, kind: AlertKind, now: int, generation: int): AlertState {
    AlertState(scope, kind, Open, generation, 1, Deadline(now), None)
  }

  function Unchanged(state: Option<AlertState>, outcome: AlertOutcome): AlertTransition {
    AlertTransition(state, state, None, None, outcome)
  }

  function EvaluateAutomaticAlert(state: Option<AlertState>, request: AlertRequest): AlertTransition
    requires state.Some? ==> state.value.Valid()
    requires request.Valid()
  {
    if state.Some? && (state.value.scope != request.scope || state.value.kind != request.kind) then
      Unchanged(state, RefusedOutcome)
    else if request.operation == OpenAlert then
      OpenOrUpdate(state, request)
    else if state.None? then
      Unchanged(state, RefusedOutcome)
    else
      match request.operation
      case RecoverAlert => RecoverActive(state.value, request.now)
      case ArchiveAlert => ArchiveCooled(state.value, request.now)
      case _ => Escalate(state.value, request.now)
  }

  function OpenOrUpdate(state: Option<AlertState>, request: AlertRequest): AlertTransition {
    if state.None? then
      AlertTransition(
        None, Some(NewAlert(request.scope, request.kind, request.now, 1)), None,
        Some(OpenedEvent), Applied)
    else
      var s := state.value;
      if IsActive(s.lifecycle) || (s.lifecycle == Recovered && request.now < s.cooldownUntil) then
        AnotherOccurrence(s, request.now)
      else if s.generation == MAX_BOUNDED_COUNTER then
        Unchanged(state, RefusedOutcome)
      else
        AlertTransition(
          state, state, Some(NewAlert(request.scope, request.kind, request.now, s.generation + 1)),
          Some(OpenedEvent), Applied)
  }

  function RecoverActive(s: AlertState, now: int): AlertTransition {
    if IsActive(s.lifecycle) then
      var recovered := s.(
        lifecycle := Recovered,
        recoveredAt := Some(now),
        cooldownUntil := Max(s.cooldownUntil, Deadline(now)));
      AlertTransition(Some(s), Some(recovered), None, Some(RecoveredEvent), Applied)
    else
      Unchanged(Some(s), Idempotent)
  }

  function ArchiveCooled(s: AlertState, now: int): AlertTransition {
    if s.lifecycle == Archived then
      Unchanged(Some(s), Idempotent)
    else if s.lifecycle != Recovered || now < s.cooldownUntil then
      Unchanged(Some(s), RefusedOutcome)
    else
      AlertTransition(
        Some(s), Some(s.(lifecycle := Archived)), None, Some(ArchivedEvent), Applied)
  }

  function Escalate(s: AlertState, now: int): AlertTransition {
    if !IsActive(s.lifecycle) || s.kind != DegradedAlert || s.generation == MAX_BOUNDED_COUNTER then
      Unchanged(Some(s), RefusedOutcome)
    else
      AlertTransition(
        Some(s), Some(s), Some(NewAlert(s.scope, UnavailableAlert, now, s.generation + 1)),
        Some(OpenedEvent), Applied)
  }

  function AnotherOccurrence(s: AlertState, now: int): AlertTransition {
    var updated := s.(
      occurrences := Saturated(s.occurrences + 1),
      cooldownUntil := Max(s.cooldownUntil, Deadline(now)));
    if updated == s then Unchanged(Some(s), Idempotent)
    else AlertTransition(Some(s), Some(updated), None, Some(OccurrenceUpdatedEvent), Applied)
  }

  /** The alert that a transition adds to the table, if any. */
  function Created(t: AlertTransition): Option<AlertState> {
    if t.previous.None? && t.state.Some? then t.state else t.created
  }

  /** A lifecycle only moves forward. */
  predicate Forward(before: AlertLifecycle, after: AlertLifecycle) {
    || before == after
    || (IsActive(before) && after == Recovered)
    || (before == Recovered && after == Archived)
  }

  /** The transition adds one open alert. */
  predicate AddsLawfully(state: Option<AlertState>, request: AlertRequest, t: AlertTransition) {
    && Created(t).Some?
    && Created(t).value.Valid()
    && Created(t).value.lifecycle == Open
    && Created(t).value.scope == request.scope
    && t.event == Some(OpenedEvent)
    && request.now <= Created(t).value.cooldownUntil
    && (t.state != state ==> state.None?)
  }

  /** The transition moves one alert forward, at the time of the request. */
  predicate MovesLawfully(before: AlertState, after: AlertState, event: Option<LifecycleEvent>, now: int) {
    && after.Valid()
    && after.scope == before.scope && after.kind == before.kind && after.generation == before.generation
    && Forward(before.lifecycle, after.lifecycle)
    && before.cooldownUntil <= after.cooldownUntil
    && (event == Some(RecoveredEvent) <==> IsActive(before.lifecycle) && after.lifecycle == Recovered)
    && (event == Some(ArchivedEvent) <==> before.lifecycle == Recovered && after.lifecycle == Archived)
    && (event == Some(ArchivedEvent) ==> before.cooldownUntil <= now)
    && (after.recoveredAt != before.recoveredAt ==> event == Some(RecoveredEvent) && after.recoveredAt == Some(now))
  }

  predicate Lawful(state: Option<AlertState>, request: AlertRequest, t: AlertTransition) {
    if t.outcome != Applied then t == Unchanged(state, t.outcome)
    else if Created(t).Some? then AddsLawfully(state, request, t)
    else state.Some? && t.state.Some? && MovesLawfully(state.value, t.state.value, t.event, request.now)
  }

  lemma OpeningIsLawful(state: Option<AlertState>, request: AlertRequest)
    requires state.Some? ==> state.value.Valid()
    requires request.Valid()
    ensures Lawful(state, request, OpenOrUpdate(state, request))
  {
  }

  lemma RecoveryIsLawful(state: AlertState, request: AlertRequest)
    requires state.Valid() && request.Valid()
    ensures Lawful(Some(state), request, RecoverActive(state, request.now))
  {
  }

  lemma ArchivalIsLawful(state: AlertState, request: AlertRequest)
    requires state.Valid() && request.Valid()
    ensures Lawful(Some(state), request, ArchiveCooled(state, request.now))
  {
  }

  lemma EscalationIsLawful(state: AlertState, request: AlertRequest)
    requires state.Valid() && request.Valid() && state.scope == request.scope
    ensures Lawful(Some(state), request, Escalate(state, request.now))
  {
  }

  /**
   * Every applied transition either adds one open alert, or moves one existing alert forward
   * without shortening its cooldown; an archive never comes before the cooldown is over.
   */
  lemma TransitionIsLawful(state: Option<AlertState>, request: AlertRequest)
    requires state.Some? ==> state.value.Valid()
    requires request.Valid()
    ensures Lawful(state, request, EvaluateAutomaticAlert(state, request))
  {
    hide OpenOrUpdate, RecoverActive, ArchiveCooled, Escalate, AlertState.Valid, AddsLawfully, MovesLawfully, Created;
    OpeningIsLawful(state, request);
    if state.Some? && state.value.scope == request.scope {
      RecoveryIsLawful(state.value, request);
      ArchivalIsLawful(state.value, request);
      EscalationIsLawful(state.value, request);
    }
  }
}
