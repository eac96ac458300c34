/** The tables of schema version 1 that ingestion and retention work on (health_history/schema.py). */
module HistoryTables {
  import opened Wrappers
  import opened HealthModels
  import opened Projection
  import opened Evaluation
  import opened Lifecycle

  /** One accepted observation, as the ledger and the checkpoint remember it. */
  datatype ReplayEntry = ReplayEntry(sequence: int, observedAt: int, digest: Digest, kind: SampleKind) {
    predicate Valid() {
      && 0 <= sequence <= MAX_OBSERVATION_SEQUENCE
      && IsTimestamp(observedAt)
      && |digest| == PROJECTION_DIGEST_BYTES
    }
  }

  datatype Checkpoint = Checkpoint(last: Option<ReplayEntry>, acceptedCount: int)

  /** For the sampling scope `health.count` holds the largest miss report. */
  datatype EvaluationRow = EvaluationRow(
    health: HealthState,
    lastSample: Option<int>,
    lastHeartbeat: Option<int>,
    gapPhase: SamplingGapPhase)

  /** A sample together with its four component rows. */
  datatype SampleRow = SampleRow(
    sequence: int,
    observedAt: int,
    recordedAt: int,
    overall: Status,
    uptime: int,
    storedKind: SampleKind,
    acceptedKind: SampleKind,
    digest: Digest,
    missedIntervals: int,
    components: seq<ComponentProjection>)

  datatype AlertRow = AlertRow(
    state: AlertState,
    severity: Status,
    openedAt: int,
    acknowledgedAt: Option<int>,
    archivedAt: Option<int>,
    firstSample: Option<int>,
    latestSample: Option<int>)

  datatype EventRow = EventRow(
    alertId: int,
    event: LifecycleEvent,
    at: int,
    supportingSample: Option<int>,
    resulting: AlertLifecycle)

  /** The ledger is kept in the order of its integer primary key; the other tables are keyed by row id. */
  datatype Db = Db(
    checkpoint: Checkpoint,
    ledger: seq<ReplayEntry>,
    evaluation: map<AlertScope, EvaluationRow>,
    samples: map<int, SampleRow>,
    alerts: map<int, AlertRow>,
    events: map<int, EventRow>)

  /** The evaluation table has a row for each of the six scopes. */
  predicate HasEveryScope(evaluation: map<AlertScope, EvaluationRow>)
    ensures HasEveryScope(evaluation) ==> forall scope: AlertScope :: scope in evaluation
  {
    && Overall in evaluation
    && Sampling in evaluation
    && Component(Wled) in evaluation
    && Component(HyperHdr) in evaluation
    && Component(Capture) in evaluation
    && Component(RaspberryPi) in evaluation
    && (SixScopes(evaluation); true)
  }

  lemma SixScopes(evaluation: map<AlertScope, EvaluationRow>)
    requires Overall in evaluation && Sampling in evaluation
    requires Component(Wled) in evaluation && Component(HyperHdr) in evaluation
    requires Component(Capture) in evaluation && Component(RaspberryPi) in evaluation
    ensures forall scope: AlertScope :: scope in evaluation
  {
    forall scope: AlertScope
      ensures scope in evaluation
    {
      match scope {
        case Overall =>
        case Sampling =>
        case Component(name) => assert ComponentAt(ComponentIndex(name)) == name;
      }
    }
  }

  const FRESH_EVALUATION_ROW := EvaluationRow(INITIAL_STATE, None, None, Clear)

  /** The content of a database that was just created. */
  const EMPTY_DB := Db(
    Checkpoint(None, 0),
    [],
    map[
      Overall := FRESH_EVALUATION_ROW,
      Component(Wled) := FRESH_EVALUATION_ROW,
      Component(HyperHdr) := FRESH_EVALUATION_ROW,
      Component(Capture) := FRESH_EVALUATION_ROW,
      Component(RaspberryPi) := FRESH_EVALUATION_ROW,
      Sampling := FRESH_EVALUATION_ROW],
    map[], map[], map[])

  function EntryOf(p: HealthProjection): ReplayEntry {
    ReplayEntry(p.sequence, p.observedAt, p.digest, p.kind)
  }

  /** The projection that a stored sample was made from. */
  function RowProjection(row: SampleRow): HealthProjection {
    HealthProjection(
      1, row.sequence, row.observedAt, row.recordedAt, row.overall, row.uptime,
      row.acceptedKind, row.missedIntervals, row.components, row.digest)
  }

  function SampleOf(p: HealthProjection, storedKind: SampleKind): SampleRow {
    SampleRow(
      p.sequence, p.observedAt, p.recordedAt, p.overall, p.uptime,
      storedKind, p.kind, p.digest, p.missedIntervals, p.components)
  }

  function SeverityOf(kind: AlertKind): Status {
    if kind == DegradedAlert then Degraded else Unavailable
  }

  predicate OfPair(row: AlertRow, scope: AlertScope, kind: AlertKind) {
    row.state.scope == scope && row.state.kind == kind
  }

  /** The alerts of one scope and kind whose lifecycle is active. */
  function ActiveIds(alerts: map<int, AlertRow>, scope: AlertScope, kind: AlertKind): set<int> {
    set id | id in alerts && OfPair(alerts[id], scope, kind) && IsActive(alerts[id].state.lifecycle)
  }

  /** The alerts of one scope and kind that have recovered, archived or not. */
  function TerminalIds(alerts: map<int, AlertRow>, scope: AlertScope, kind: AlertKind): set<int> {
    set id | id in alerts && OfPair(alerts[id], scope, kind) && IsTerminal(alerts[id].state.lifecycle)
  }

  /** The table constraints on one alert row. */
  predicate AlertConstraints(row: AlertRow) {
    && IsTimestamp(row.openedAt)
    && (row.acknowledgedAt.Some? ==> IsTimestamp(row.acknowledgedAt.value))
    && (row.archivedAt.Some? ==> IsTimestamp(row.archivedAt.value))
    && row.state.Valid()
    && (row.state.lifecycle == Acknowledged ==> row.acknowledgedAt.Some?)
    && (row.acknowledgedAt.Some? ==> row.state.lifecycle != Open)
    && (row.state.lifecycle == Archived <==> row.archivedAt.Some?)
    && row.severity == SeverityOf(row.state.kind)
  }
}
