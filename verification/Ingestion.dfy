/**
 * Ingestion of one health projection as a function of the database (health_history/ingestion.py).
 * A transaction either yields a new database or a rejection that leaves the old one in place.
 */
module Ingestion {
  import opened Wrappers
  import opened HealthModels
  import opened Projection
  import opened Evaluation
  import opened SamplingGap
  import opened Lifecycle
  import opened RowOrder
  import opened HistoryTables

  const HEARTBEAT_INTERVAL_US: int := 15 * 60 * 1_000_000
  const MAX_RELEVANT_ALERTS: nat := 11

  datatype IngestionOutcome =
    | Replayed
    | StateOnly
    | TransitionStored
    | HeartbeatStored
    | StartupMarkerStored
    | ClockMarkerStored

  datatype RejectionReason =
    | InvalidProjection
    | StaleSequence
    | SequenceConflict
    | GenerationExhausted
    | MalformedState
    | TrustFailed

  datatype Rejection = Rejection(reason: RejectionReason, trustLost: bool)

  datatype IngestionResult = Accepted(outcome: IngestionOutcome) | Rejected(rejection: Rejection)

  const MALFORMED := Rejection(MalformedState, true)
  const CONSTRAINT_VIOLATED := Rejection(TrustFailed, true)

  /** An alert as read from the table. */
  datatype StoredAlert = StoredAlert(id: int, state: AlertState)

  datatype AlertPlan = AlertPlan(existing: Option<int>, transition: AlertTransition)

  datatype StorageDecision = StorageDecision(
    outcome: IngestionOutcome,
    storedKind: Option<SampleKind>,
    updatesBaseline: bool)

  // ---------- Checkpoint and replay ledger ----------

  function ReadCheckpoint(c: Checkpoint): Outcome<Rejection> {
    Need(
      && IsCounter(c.acceptedCount)
      && (c.last.None? <==> c.acceptedCount == 0)
      && (c.last.Some? ==> c.last.value.Valid()),
      MALFORMED)
  }

  function ValidateReplayAnchor(db: Db): Outcome<Rejection> {
    var c, n := db.checkpoint, |db.ledger|;
    Need(
      && Min(n, REPLAY_LEDGER_CAPACITY + 1) == Min(c.acceptedCount, REPLAY_LEDGER_CAPACITY)
      && (c.last.Some? ==>
            && n > 0
            && (forall i :: 0 <= i < n ==> db.ledger[i].Valid())
            && db.ledger[n - 1] == c.last.value),
      MALFORMED)
  }

  function FindEntry(ledger: seq<ReplayEntry>, sequence: int): Option<ReplayEntry> {
    if ledger == [] then None
    else
      var newest := ledger[|ledger| - 1];
      if newest.sequence == sequence then Some(newest)
      else FindEntry(ledger[..|ledger| - 1], sequence)
  }

  /** Whether the projection repeats an accepted observation. */
  function ReplayOrStale(db: Db, p: HealthProjection): Result<bool, Rejection> {
    if db.checkpoint.last.None? || p.sequence > db.checkpoint.last.value.sequence then
      Success(false)
    else
      match FindEntry(db.ledger, p.sequence)
      case None => Failure(Rejection(StaleSequence, false))
      case Some(entry) =>
        if entry == EntryOf(p) then Success(true)
        else Failure(Rejection(SequenceConflict, false))
  }

  // ---------- Evaluation rows ----------

  predicate Readable(scope: AlertScope, row: EvaluationRow) {
    && IsCounter(row.health.count)
    && (row.lastSample.Some? ==> row.lastSample.value >= 1)
    && (row.lastHeartbeat.Some? ==> IsTimestamp(row.lastHeartbeat.value))
    && if scope == Sampling then row.health.current.None? && row.health.candidate.None?
       else row.health.Valid() && row.gapPhase == Clear
  }

  function ReadEvaluationRows(db: Db): Outcome<Rejection> {
    Need(
      HasEveryScope(db.evaluation)
      && forall scope | scope in db.evaluation :: Readable(scope, db.evaluation[scope]),
      MALFORMED)
  }

  // ---------- Reading alerts ----------

  function ReadAlert(db: Db, id: int): Result<StoredAlert, Rejection>
    requires id in db.alerts
  {
    var state := db.alerts[id].state;
    if id >= 1 && state.Valid() then Success(StoredAlert(id, state)) else Failure(MALFORMED)
  }

  /** The alerts a sorted listing names, in that order. */
  function ReadAlerts(db: Db, rows: seq<RowKey>): (r: Result<seq<StoredAlert>, Rejection>)
    requires forall i :: 0 <= i < |rows| ==> rows[i].2 in db.alerts
  {
    if rows == [] then Success([])
    else
      var first :- ReadAlert(db, rows[0].2);
      var rest :- ReadAlerts(db, rows[1..]);
      Success([first] + rest)
  }

  function KindRank(kind: AlertKind): int {
    if kind == DegradedAlert then 0 else 1
  }

  predicate IsActiveHealth(row: AlertRow, scope: AlertScope) {
    && row.state.scope == scope
    && row.state.kind != SamplingGapAlert
    && IsActive(row.state.lifecycle)
  }

  /** Active health alerts of a scope; `degraded` sorts before `unavailable`. */
  function ActiveHealthKeys(db: Db, scope: AlertScope): (keys: set<RowKey>)
    ensures forall k :: k in keys ==> k.2 in db.alerts
  {
    set id | id in db.alerts && IsActiveHealth(db.alerts[id], scope) :: (KindRank(db.alerts[id].state.kind), 0, id)
  }

  function ActiveHealthAlerts(db: Db, scope: AlertScope): Result<seq<StoredAlert>, Rejection> {
    var rows := Fetch(ActiveHealthKeys(db, scope), 3);
    if |rows| > 2 then Failure(MALFORMED) else ReadAlerts(db, rows)
  }

  function CurrentOrLatest(db: Db, scope: AlertScope, kind: AlertKind): Result<Option<StoredAlert>, Rejection> {
    var active := ActiveIds(db.alerts, scope, kind);
    var terminal := TerminalIds(db.alerts, scope, kind);
    if |active| > 1 then
      Failure(MALFORMED)
    else if active != {} then
      var stored :- ReadAlert(db, Latest(active));
      Success(Some(stored))
    else if terminal != {} then
      var stored :- ReadAlert(db, Latest(terminal));
      Success(Some(stored))
    else
      Success(None)
  }

  // ---------- Persisting one alert plan ----------

  function InsertEvent(
    db: Db, alertId: int, event: LifecycleEvent, now: int, sample: Option<int>, resulting: AlertLifecycle): Db
  {
    db.(events := db.events[NextId(db.events.Keys) := EventRow(alertId, event, now, sample, resulting)])
  }

  function OpenedRow(state: AlertState, now: int, sample: int): AlertRow {
    AlertRow(
      state.(lifecycle := Open, recoveredAt := None), SeverityOf(state.kind), now, None, None,
      Some(sample), Some(sample))
  }

  /** A new open alert; the active pair is unique and its sample must exist. */
  function InsertAlert(db: Db, state: AlertState, now: int, sample: int): Result<Db, Rejection> {
    var row := OpenedRow(state, now, sample);
    if ActiveIds(db.alerts, state.scope, state.kind) == {} && sample in db.samples && AlertConstraints(row) then
      Success(db.(alerts := db.alerts[NextId(db.alerts.Keys) := row]))
    else
      Failure(CONSTRAINT_VIOLATED)
  }

  /** The row after an event on an existing alert. */
  function MovedRow(row: AlertRow, state: AlertState, event: LifecycleEvent, now: int, sample: Option<int>): AlertRow {
    match event
    case OccurrenceUpdatedEvent =>
      row.(
        state := row.state.(occurrences := state.occurrences, cooldownUntil := state.cooldownUntil),
        latestSample := if sample.Some? then sample else row.latestSample)
    case RecoveredEvent =>
      row.(
        state := row.state.(
          lifecycle := Recovered, recoveredAt := state.recoveredAt, cooldownUntil := state.cooldownUntil),
        latestSample := sample)
    case ArchivedEvent =>
      row.(state := row.state.(lifecycle := Archived), archivedAt := Some(now))
    case _ => row
  }

  /** The two databases differ in alerts and alert events at most. */
  predicate SameApartFromAlerts(a: Db, b: Db) {
    a.(alerts := b.alerts, events := b.events) == b
  }

  function PersistPlan(db: Db, plan: AlertPlan, now: int, sample: Option<int>): (r: Result<Db, Rejection>)
    ensures r.Success? ==> SameApartFromAlerts(db, r.value)
  {
    var t := plan.transition;
    var created := Created(t);
    if t.outcome == Idempotent then
      Success(db)
    else if t.outcome != Applied then
      Failure(MALFORMED)
    else if created.Some? then
      if sample.None? then Failure(MALFORMED)
      else
        var id := NextId(db.alerts.Keys);
        var inserted :- InsertAlert(db, created.value, now, sample.value);
        Success(InsertEvent(inserted, id, OpenedEvent, now, sample, Open))
    else if plan.existing.None? || t.state.None? || t.event.None? then
      Failure(MALFORMED)
    else if t.event.value == OpenedEvent || t.event.value == AcknowledgedEvent then
      Failure(MALFORMED)
    else
      var id, state, event := plan.existing.value, t.state.value, t.event.value;
      if id !in db.alerts then Failure(MALFORMED)
      else
        var row := MovedRow(db.alerts[id], state, event, now, sample);
        if AlertConstraints(row) then
          Success(InsertEvent(db.(alerts := db.alerts[id := row]), id, event, now, sample, state.lifecycle))
        else
          Failure(CONSTRAINT_VIOLATED)
  }

  function PersistPlans(db: Db, plans: seq<AlertPlan>, now: int, sample: Option<int>): (r: Result<Db, Rejection>)
    ensures r.Success? ==> SameApartFromAlerts(db, r.value)
    decreases |plans|
  {
    if plans == [] then Success(db)
    else
      var first :- PersistPlan(db, plans[0], now, sample);
      PersistPlans(first, plans[1..], now, sample)
  }

  // ---------- Archival of alerts whose cooldown is over ----------

  function EligibleKeys(db: Db, now: int): (keys: set<RowKey>)
    ensures forall k :: k in keys ==> k.2 in db.alerts
  {
    set id | id in db.alerts
      && db.alerts[id].state.lifecycle == Recovered && db.alerts[id].state.cooldownUntil <= now
      :: (db.alerts[id].state.cooldownUntil, 0, id)
  }

  function ArchivePlan(stored: StoredAlert, now: int): AlertPlan
    requires stored.state.Valid() && IsTimestamp(now)
  {
    AlertPlan(
      Some(stored.id),
      EvaluateAutomaticAlert(
        Some(stored.state),
        AlertRequest(ArchiveAlert, stored.state.scope, stored.state.kind, now)))
  }

  /** `read` is the table the rows were fetched from, `db` the one being changed. */
  function ArchiveRows(
    read: Db, db: Db, rows: seq<RowKey>, seen: set<(AlertScope, AlertKind)>, now: int): (r: Result<Db, Rejection>)
    requires IsTimestamp(now)
    requires forall i :: 0 <= i < |rows| ==> rows[i].2 in read.alerts
    ensures r.Success? ==> SameApartFromAlerts(db, r.value)
    decreases |rows|
  {
    if rows == [] then Success(db)
    else
      var stored :- ReadAlert(read, rows[0].2);
      var pair := (stored.state.scope, stored.state.kind);
      if pair in seen then Failure(MALFORMED)
      else
        var archived :- PersistPlan(db, ArchivePlan(stored, now), now, None);
        ArchiveRows(read, archived, rows[1..], seen + {pair}, now)
  }

  function ArchiveEligible(db: Db, now: int): (r: Result<Db, Rejection>)
    requires IsTimestamp(now)
    ensures r.Success? ==> SameApartFromAlerts(db, r.value)
  {
    var rows := Fetch(EligibleKeys(db, now), MAX_RELEVANT_ALERTS + 1);
    if |rows| > MAX_RELEVANT_ALERTS then Failure(MALFORMED)
    else ArchiveRows(db, db, rows, {}, now)
  }

  // ---------- Evaluating the scopes ----------

  /** What the projection says about one health scope; `WellFormed` fixes the four components. */
  function ScopeStatus(p: HealthProjection, scope: AlertScope): Status
    requires WellFormed(p)
  {
    match scope
    case Component(name) => p.components[ComponentIndex(name)].status
    case _ => p.overall
  }

  predicate ScopeDisabled(p: HealthProjection, scope: AlertScope)
    requires WellFormed(p)
  {
    match scope
    case Component(name) => p.components[ComponentIndex(name)].IntentionallyDisabled()
    case _ =>
      && p.overall != Healthy
      && (exists i :: 0 <= i < |p.components| && p.components[i].status == p.overall)
      && (forall i :: 0 <= i < |p.components| && p.components[i].status == p.overall ==>
            p.components[i].IntentionallyDisabled())
  }

  function ScopeInput(p: HealthProjection, scope: AlertScope, activeAlert: bool): HealthInput
    requires WellFormed(p)
  {
    HealthInput(ScopeStatus(p, scope), ScopeDisabled(p, scope), activeAlert)
  }

  function EvaluateScope(db: Db, p: HealthProjection, scope: AlertScope): Result<HealthTransition, Rejection>
    requires WellFormed(p)
    requires scope in db.evaluation
  {
    var active :- ActiveHealthAlerts(db, scope);
    var input := ScopeInput(p, scope, active != []);
    var state := db.evaluation[scope].health;
    if state.Valid() && input.Valid() then Success(EvaluateHealthState(state, input))
    else Failure(MALFORMED)
  }

  type HealthTransitions = map<AlertScope, HealthTransition>

  /** The first `n` health scopes in their fixed order. */
  function EvaluateScopes(db: Db, p: HealthProjection, n: nat): (r: Result<HealthTransitions, Rejection>)
    requires WellFormed(p)
    requires n <= HEALTH_SCOPE_COUNT
    requires HasEveryScope(db.evaluation)
    ensures r.Success? ==> forall scope: AlertScope :: scope in r.value <==> Visited(scope, n)
  {
    if n == 0 then Success(map[])
    else
      var before :- EvaluateScopes(db, p, n - 1);
      var transition :- EvaluateScope(db, p, HealthScopeAt(n - 1));
      Success(before[HealthScopeAt(n - 1) := transition])
  }

  function GapStateOf(db: Db): GapState
    requires Sampling in db.evaluation
  {
    var row, c := db.evaluation[Sampling], db.checkpoint;
    GapState(
      row.gapPhase, c.acceptedCount, row.health.count,
      if c.last.None? then None else Some(c.last.value.sequence))
  }

  function GapObservationOf(p: HealthProjection): GapObservation {
    GapObservation(p.sequence, p.missedIntervals, p.kind == StartupGap, p.kind == ClockDiscontinuity)
  }

  function EvaluateGap(db: Db, p: HealthProjection): Result<GapTransition, Rejection>
    requires Sampling in db.evaluation
  {
    var state, observation := GapStateOf(db), GapObservationOf(p);
    if state.Valid() && observation.Valid() then Success(EvaluateSamplingGap(state, observation))
    else Failure(MALFORMED)
  }

  // ---------- What to store ----------

  function References(db: Db): set<Option<int>> {
    set scope | scope in db.evaluation :: db.evaluation[scope].lastSample
  }

  predicate ReadableBaseline(hash: Hash, db: Db, id: int) {
    && id in db.samples
    && db.checkpoint.last.Some?
    && db.samples[id].sequence <= db.checkpoint.last.value.sequence
    && ValidProjection(hash, RowProjection(db.samples[id]))
  }

  function BaselineReference(hash: Hash, db: Db): Result<Option<int>, Rejection>
    requires HasEveryScope(db.evaluation)
  {
    var reference := db.evaluation[Overall].lastSample;
    if References(db) != {reference} then Failure(MALFORMED)
    else if reference.None? then Success(None)
    else if ReadableBaseline(hash, db, reference.value) then Success(reference)
    else Failure(MALFORMED)
  }

  /** The stored health and the observed health are the same. */
  predicate SameHealth(row: SampleRow, p: HealthProjection) {
    && row.overall == p.overall
    && |row.components| == |p.components|
    && (forall i :: 0 <= i < |p.components| ==>
          && row.components[i].component == p.components[i].component
          && row.components[i].status == p.components[i].status
          && row.components[i].reasons == p.components[i].reasons)
  }

  predicate HeartbeatDue(lastHeartbeat: int, now: int) {
    now >= lastHeartbeat && now - lastHeartbeat >= HEARTBEAT_INTERVAL_US
  }

  function DecideStorage(hash: Hash, db: Db, p: HealthProjection): Result<StorageDecision, Rejection>
    requires HasEveryScope(db.evaluation)
  {
    var baseline :- BaselineReference(hash, db);
    var first := db.checkpoint.last.None?;
    var keepsBaseline := !first && baseline.None?;
    if first && baseline.Some? then
      Failure(MALFORMED)
    else if p.kind == StartupGap then
      Success(StorageDecision(StartupMarkerStored, Some(StartupGap), !keepsBaseline))
    else if p.kind == ClockDiscontinuity then
      Success(StorageDecision(ClockMarkerStored, Some(ClockDiscontinuity), !keepsBaseline))
    else if first || baseline.None? then
      Success(StorageDecision(TransitionStored, Some(Transition), true))
    else if !SameHealth(db.samples[baseline.value], p) then
      Success(StorageDecision(TransitionStored, Some(Transition), true))
    else
      match db.evaluation[Overall].lastHeartbeat
      case None => Failure(MALFORMED)
      case Some(lastHeartbeat) =>
        if HeartbeatDue(lastHeartbeat, p.recordedAt) then
          Success(StorageDecision(HeartbeatStored, Some(Heartbeat), true))
        else
          Success(StorageDecision(StateOnly, None, true))
  }

  function ForceTransition(decision: StorageDecision): StorageDecision {
    match decision.storedKind
    case Some(Transition) => decision
    case Some(StartupGap) => decision
    case Some(ClockDiscontinuity) => decision
    case _ => StorageDecision(TransitionStored, Some(Transition), true)
  }

  // ---------- Planning alerts ----------

  function PlanOpen(db: Db, scope: AlertScope, kind: AlertKind, now: int): Result<AlertPlan, Rejection>
    requires PairFits(scope, kind) && IsTimestamp(now)
  {
    var stored :- CurrentOrLatest(db, scope, kind);
    var state := if stored.None? then None else Some(stored.value.state);
    if state.Some? && !state.value.Valid() then Failure(MALFORMED)
    else
      var t := EvaluateAutomaticAlert(state, AlertRequest(OpenAlert, scope, kind, now));
      if t.outcome == RefusedOutcome then Failure(Rejection(GenerationExhausted, false))
      else Success(AlertPlan(if stored.None? then None else Some(stored.value.id), t))
  }

  function FirstDegraded(stored: seq<StoredAlert>): Option<StoredAlert> {
    if stored == [] then None
    else if stored[0].state.kind == DegradedAlert then Some(stored[0])
    else FirstDegraded(stored[1..])
  }

  function PlanCondition(db: Db, scope: AlertScope, kind: AlertKind, now: int): Result<AlertPlan, Rejection>
    requires scope != Sampling && kind != SamplingGapAlert && IsTimestamp(now)
  {
    if kind != UnavailableAlert then PlanOpen(db, scope, kind, now)
    else
      var unavailable :- CurrentOrLatest(db, scope, UnavailableAlert);
      if unavailable.Some? then PlanOpen(db, scope, kind, now)
      else
        var active :- ActiveHealthAlerts(db, scope);
        match FirstDegraded(active)
        case None => PlanOpen(db, scope, kind, now)
        case Some(degraded) =>
          if !degraded.state.Valid() then Failure(MALFORMED)
          else
            var t := EvaluateAutomaticAlert(
              Some(degraded.state), AlertRequest(EscalateAlert, scope, DegradedAlert, now));
            if t.outcome == RefusedOutcome then Failure(Rejection(GenerationExhausted, false))
            else if t.event != Some(OpenedEvent) then Failure(MALFORMED)
            else Success(AlertPlan(Some(degraded.id), t))
  }

  function PlanRecovery(stored: StoredAlert, now: int): Result<AlertPlan, Rejection>
    requires IsTimestamp(now)
  {
    if !stored.state.Valid() then Failure(MALFORMED)
    else
      var t := EvaluateAutomaticAlert(
        Some(stored.state), AlertRequest(RecoverAlert, stored.state.scope, stored.state.kind, now));
      if t.event != Some(RecoveredEvent) then Failure(MALFORMED)
      else Success(AlertPlan(Some(stored.id), t))
  }

  function PlanRecoveries(stored: seq<StoredAlert>, now: int): Result<seq<AlertPlan>, Rejection>
    requires IsTimestamp(now)
  {
    if stored == [] then Success([])
    else
      var first :- PlanRecovery(stored[0], now);
      var rest :- PlanRecoveries(stored[1..], now);
      Success([first] + rest)
  }

  function PlanScope(db: Db, scope: AlertScope, t: HealthTransition, now: int): Result<seq<AlertPlan>, Rejection>
    requires scope != Sampling && IsTimestamp(now)
  {
    match t.event
    case NoEvent => Success([])
    case ConditionConfirmed =>
      if t.state.current == Some(Degraded) then
        var plan :- PlanCondition(db, scope, DegradedAlert, now);
        Success([plan])
      else if t.state.current == Some(Unavailable) then
        var plan :- PlanCondition(db, scope, UnavailableAlert, now);
        Success([plan])
      else
        Failure(MALFORMED)
    case RecoveryConfirmed =>
      var active :- ActiveHealthAlerts(db, scope);
      PlanRecoveries(active, now)
  }

  function PlanScopes(db: Db, health: HealthTransitions, n: nat, now: int): Result<seq<AlertPlan>, Rejection>
    requires n <= HEALTH_SCOPE_COUNT && IsTimestamp(now)
    requires forall scope: AlertScope :: Visited(scope, n) ==> scope in health
  {
    if n == 0 then Success([])
    else
      var scope := HealthScopeAt(n - 1);
      assert Visited(scope, n);
      assert forall s: AlertScope :: Visited(s, n - 1) ==> Visited(s, n);
      var before :- PlanScopes(db, health, n - 1, now);
      var plans :- PlanScope(db, scope, health[scope], now);
      Success(before + plans)
  }

  predicate GapCondition(gap: GapTransition, p: HealthProjection) {
    || gap.event == GapOpened
    || (gap.state.phase == Active
        && p.missedIntervals > 0 && p.kind != ClockDiscontinuity
        && (gap.event == MissRecorded || gap.event == RecoveryReset))
  }

  function PlanGap(db: Db, gap: GapTransition, p: HealthProjection): Result<seq<AlertPlan>, Rejection>
    requires IsTimestamp(p.recordedAt)
  {
    if GapCondition(gap, p) then
      var plan :- PlanOpen(db, Sampling, SamplingGapAlert, p.recordedAt);
      Success([plan])
    else if gap.event == GapRecovered then
      var active := ActiveIds(db.alerts, Sampling, SamplingGapAlert);
      if |active| > 1 then Failure(MALFORMED)
      else if active == {} then Success([])
      else
        var stored :- ReadAlert(db, Latest(active));
        PlanRecoveries([stored], p.recordedAt)
    else
      Success([])
  }

  function PlanAlerts(db: Db, health: HealthTransitions, gap: GapTransition, p: HealthProjection)
    : Result<seq<AlertPlan>, Rejection>
    requires IsTimestamp(p.recordedAt)
    requires forall scope: AlertScope :: Visited(scope, HEALTH_SCOPE_COUNT) ==> scope in health
  {
    var healthPlans :- PlanScopes(db, health, HEALTH_SCOPE_COUNT, p.recordedAt);
    var gapPlans :- PlanGap(db, gap, p);
    Success(healthPlans + gapPlans)
  }

  predicate NeedsSample(plan: AlertPlan) {
    plan.transition.event == Some(OpenedEvent) || plan.transition.event == Some(RecoveredEvent)
  }

  predicate AnyNeedsSample(plans: seq<AlertPlan>) {
    exists i :: 0 <= i < |plans| && NeedsSample(plans[i])
  }

  // ---------- Writing ----------

  function WrittenRow(
    scope: AlertScope, row: EvaluationRow, health: HealthTransitions, gap: GapTransition,
    baseline: Option<int>, heartbeat: Option<int>): EvaluationRow
  {
    EvaluationRow(
      if scope == Sampling then row.health.(count := gap.state.largestMiss)
      else if scope in health then health[scope].state else row.health,
      if baseline.Some? then baseline else row.lastSample,
      if heartbeat.Some? then heartbeat else row.lastHeartbeat,
      if scope == Sampling then gap.state.phase else row.gapPhase)
  }

  function WriteEvaluationRows(
    db: Db, health: HealthTransitions, gap: GapTransition, baseline: Option<int>, heartbeat: Option<int>): Db
  {
    db.(evaluation := map scope | scope in db.evaluation ::
      WrittenRow(scope, db.evaluation[scope], health, gap, baseline, heartbeat))
  }

  function InsertInKeyOrder(ledger: seq<ReplayEntry>, entry: ReplayEntry): seq<ReplayEntry> {
    if ledger == [] || ledger[|ledger| - 1].sequence < entry.sequence then ledger + [entry]
    else InsertInKeyOrder(ledger[..|ledger| - 1], entry) + [ledger[|ledger| - 1]]
  }

  function RetainFrom(ledger: seq<ReplayEntry>, threshold: int): seq<ReplayEntry> {
    if ledger == [] then []
    else
      var rest := RetainFrom(ledger[..|ledger| - 1], threshold);
      if ledger[|ledger| - 1].sequence < threshold then rest else rest + [ledger[|ledger| - 1]]
  }

  /** Drops what is older than the 64th newest entry, when there is one. */
  function TrimLedger(ledger: seq<ReplayEntry>): seq<ReplayEntry> {
    if |ledger| < REPLAY_LEDGER_CAPACITY then ledger
    else RetainFrom(ledger, ledger[|ledger| - REPLAY_LEDGER_CAPACITY].sequence)
  }

  function WriteCheckpoint(db: Db, p: HealthProjection): Result<Db, Rejection> {
    var c := db.checkpoint;
    if c.last.Some? && p.sequence <= c.last.value.sequence then Failure(MALFORMED)
    else Success(db.(
      checkpoint := Checkpoint(Some(EntryOf(p)), Saturated(c.acceptedCount + 1)),
      ledger := TrimLedger(InsertInKeyOrder(db.ledger, EntryOf(p)))))
  }

  // ---------- The transaction ----------

  /** Everything that is decided before the first row of this observation is written. */
  datatype Decisions = Decisions(
    health: HealthTransitions,
    gap: GapTransition,
    plans: seq<AlertPlan>,
    storage: StorageDecision)

  /** Decisions on a database whose eligible alerts are archived already. */
  function Decide(hash: Hash, db: Db, p: HealthProjection): (r: Result<Decisions, Rejection>)
    requires WellFormed(p)
    requires HasEveryScope(db.evaluation)
  {
    var health :- EvaluateScopes(db, p, HEALTH_SCOPE_COUNT);
    var gap :- EvaluateGap(db, p);
    var storage :- DecideStorage(hash, db, p);
    var plans :- PlanAlerts(db, health, gap, p);
    Success(Decisions(
      health, gap, plans, if AnyNeedsSample(plans) then ForceTransition(storage) else storage))
  }

  /** The sample that the alert events of this observation refer to. */
  function SampleReference(db: Db, d: Decisions): Option<int> {
    if d.storage.storedKind.Some? then Some(NextId(db.samples.Keys)) else None
  }

  /** The database after the sample and the evaluation rows of an observation are written. */
  function Recorded(db: Db, p: HealthProjection, d: Decisions): (r: Db)
    ensures r == db.(samples := r.samples, evaluation := r.evaluation)
  {
    var sample := SampleReference(db, d);
    var stored :=
      if sample.Some? then db.(samples := db.samples[sample.value := SampleOf(p, d.storage.storedKind.value)])
      else db;
    WriteEvaluationRows(
      stored, d.health, d.gap,
      if d.storage.updatesBaseline then sample else None,
      if sample.Some? then Some(p.recordedAt) else None)
  }

  /** Observation sequences are unique among samples. */
  predicate SequenceUnused(db: Db, p: HealthProjection) {
    forall id | id in db.samples :: db.samples[id].sequence != p.sequence
  }

  function Write(db: Db, p: HealthProjection, d: Decisions): Result<Db, Rejection> {
    var sample := SampleReference(db, d);
    :- Need(sample.Some? ==> SequenceUnused(db, p), CONSTRAINT_VIOLATED);
    var alerted :- PersistPlans(Recorded(db, p, d), d.plans, p.recordedAt, sample);
    WriteCheckpoint(alerted, p)
  }

  /** A new observation: archive, decide, write. */
  function Advance(hash: Hash, db: Db, p: HealthProjection): Result<(Db, IngestionOutcome), Rejection>
    requires WellFormed(p)
    requires HasEveryScope(db.evaluation)
  {
    var archived :- ArchiveEligible(db, p.recordedAt);
    var decisions :- Decide(hash, archived, p);
    var written :- Write(archived, p, decisions);
    Success((written, decisions.storage.outcome))
  }

  function Transact(hash: Hash, db: Db, p: HealthProjection): Result<(Db, IngestionOutcome), Rejection>
    requires WellFormed(p)
  {
    var checkpoint := db.checkpoint;
    :- ReadCheckpoint(checkpoint);
    :- ValidateReplayAnchor(db);
    var replay :- ReplayOrStale(db, p);
    if replay then Success((db, Replayed))
    else
      :- ReadEvaluationRows(db);
      Advance(hash, db, p)
  }

  datatype Ingested = Ingested(db: Db, result: IngestionResult)

  /** One submitted projection: the database afterwards, and what the caller is told. */
  function Ingest(hash: Hash, db: Db, p: HealthProjection): Ingested {
    if !ValidProjection(hash, p) then
      Ingested(db, Rejected(Rejection(InvalidProjection, false)))
    else
      match Transact(hash, db, p)
      case Success((next, outcome)) => Ingested(next, Accepted(outcome))
      case Failure(rejection) => Ingested(db, Rejected(rejection))
  }
}
