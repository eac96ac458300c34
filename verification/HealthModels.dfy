/** The closed vocabularies and bounds of the health history (health_history/models.py). */
module HealthModels {
  import opened Wrappers

  const MAX_TIMESTAMP_US: int := 0x7FFF_FFFF_FFFF_FFFF
  const MAX_OBSERVATION_SEQUENCE: int := 0x7FFF_FFFF_FFFF_FFFF
  const MAX_SERVICE_UPTIME_MS: int := 31_536_000_000_000
  const MAX_COMPONENT_LATENCY_MS: int := 300_000
  const MAX_BOUNDED_COUNTER: int := 65_535
  const PROJECTION_DIGEST_BYTES: int := 32
  const REPLAY_LEDGER_CAPACITY: nat := 64

  datatype Status = Healthy | Degraded | Unavailable

  datatype ComponentName = Wled | HyperHdr | Capture | RaspberryPi

  const COMPONENT_COUNT: nat := 4

  /** The fixed order of the components. */
  function ComponentAt(i: nat): ComponentName
    requires i < COMPONENT_COUNT
  {
    if i == 0 then Wled else if i == 1 then HyperHdr else if i == 2 then Capture else RaspberryPi
  }

  function ComponentIndex(name: ComponentName): (i: nat)
    ensures i < COMPONENT_COUNT && ComponentAt(i) == name
  {
    match name
    case Wled => 0
    case HyperHdr => 1
    case Capture => 2
    case RaspberryPi => 3
  }

  datatype SampleKind = Transition | Heartbeat | StartupGap | ClockDiscontinuity

  datatype AlertScope = Overall | Component(name: ComponentName) | Sampling

  const HEALTH_SCOPE_COUNT: nat := 5

  function HealthScopeIndex(scope: AlertScope): (i: nat)
    requires scope != Sampling
    ensures i < HEALTH_SCOPE_COUNT
  {
    match scope
    case Overall => 0
    case Component(name) => 1 + ComponentIndex(name)
  }

  /** The scopes that carry health alerts, in the order in which ingestion visits them. */
  function HealthScopeAt(i: nat): (scope: AlertScope)
    requires i < HEALTH_SCOPE_COUNT
    ensures scope != Sampling && HealthScopeIndex(scope) == i
  {
    if i == 0 then Overall else Component(ComponentAt(i - 1))
  }

  /** The scope is one of the first `n` that ingestion visits. */
  predicate Visited(scope: AlertScope, n: nat) {
    scope != Sampling && HealthScopeIndex(scope) < n
  }

  datatype AlertKind = DegradedAlert | UnavailableAlert | SamplingGapAlert

  datatype AlertLifecycle = Open | Acknowledged | Recovered | Archived

  datatype LifecycleEvent =
    | OpenedEvent
    | OccurrenceUpdatedEvent
    | AcknowledgedEvent
    | RecoveredEvent
    | ArchivedEvent

  datatype SamplingGapPhase = Clear | CandidateOne | Active | RecoveryOne

  predicate IsTimestamp(t: int) {
    0 <= t <= MAX_TIMESTAMP_US
  }

  predicate IsCounter(n: int) {
    0 <= n <= MAX_BOUNDED_COUNTER
  }

  /** What a counter that sticks at its bound holds instead of this value. */
  function Saturated(n: int): int {
    Min(n, MAX_BOUNDED_COUNTER)
  }

  predicate IsActive(lifecycle: AlertLifecycle) {
    lifecycle == Open || lifecycle == Acknowledged
  }

  predicate IsTerminal(lifecycle: AlertLifecycle) {
    lifecycle == Recovered || lifecycle == Archived
  }

  /** Gap alerts belong to the sampling scope and to no other. */
  predicate PairFits(scope: AlertScope, kind: AlertKind) {
    scope == Sampling <==> kind == SamplingGapAlert
  }
}
