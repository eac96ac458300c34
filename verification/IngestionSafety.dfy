/**
 * Self-consistency of ingestion: an invariant of the whole database that every ingestion keeps,
 * and under which the checks ingestion makes on its own tables can never fail.
 */
module IngestionSafety {
  import opened Wrappers
  import opened HealthModels
  import opened Projection
  import opened Evaluation
  import opened SamplingGap
  import opened Lifecycle
  import opened HistoryTables
  import opened Ingestion
  import opened AlertTable
  import opened AlertPlans
  import opened AlertPlanning

  ghost predicate Increasing(ledger: seq<ReplayEntry>) {
    forall i, j :: 0 <= i < j < |ledger| ==> ledger[i].sequence < ledger[j].sequence
  }

  ghost predicate LedgerOk(c: Checkpoint, ledger: seq<ReplayEntry>) {
    var n := |ledger|;
    && ReadCheckpoint(c).Pass?
    && n == Min(c.acceptedCount, REPLAY_LEDGER_CAPACITY)
    && Increasing(ledger)
    && (forall i :: 0 <= i < n ==> ledger[i].Valid())
    && (c.last.Some? ==> n > 0 && ledger[n - 1] == c.last.value)
  }

  type Evaluations = map<AlertScope, EvaluationRow>

  function Baseline(evaluation: Evaluations): Option<int>
    requires HasEveryScope(evaluation)
  {
    evaluation[Overall].lastSample
  }

  ghost predicate EvaluationOk(evaluation: Evaluations) {
    && HasEveryScope(evaluation)
    && (forall scope :: scope in evaluation ==>
          && Readable(scope, evaluation[scope])
          && evaluation[scope].lastSample == Baseline(evaluation))
    && (Baseline(evaluation).Some? ==> evaluation[Overall].lastHeartbeat.Some?)
  }

  /** Every sample is readable and none is newer than `sequence`. */
  ghost predicate SamplesUpTo(hash: Hash, samples: map<int, SampleRow>, sequence: int) {
    forall id :: id in samples ==>
      && id >= 1
      && samples[id].sequence <= sequence
      && ValidProjection(hash, RowProjection(samples[id]))
  }

  ghost predicate SamplesOk(hash: Hash, last: Option<ReplayEntry>, samples: map<int, SampleRow>) {
    if last.None? then samples == map[] else SamplesUpTo(hash, samples, last.value.sequence)
  }

  ghost predicate BaselineOk(evaluation: Evaluations, samples: map<int, SampleRow>) {
    HasEveryScope(evaluation) && (Baseline(evaluation).Some? ==> Baseline(evaluation).value in samples)
  }

  ghost predicate Sound(hash: Hash, db: Db) {
    && LedgerOk(db.checkpoint, db.ledger)
    && EvaluationOk(db.evaluation)
    && SamplesOk(hash, db.checkpoint.last, db.samples)
    && BaselineOk(db.evaluation, db.samples)
    && AlertsOk(db.alerts)
  }

  lemma EmptyIsSound(hash: Hash)
    ensures Sound(hash, EMPTY_DB)
  {
  }

  predicate IsNew(db: Db, p: HealthProjection) {
    db.checkpoint.last.None? || p.sequence > db.checkpoint.last.value.sequence
  }

  /** Some component claims to be switched off on purpose and healthy at once. */
  predicate DisabledButHealthy(p: HealthProjection) {
    exists i :: 0 <= i < |p.components| && p.components[i].IntentionallyDisabled() && p.components[i].status == Healthy
  }

  // ---------- The ledger ----------

  lemma {:induction false} RetainSuffixAt(ledger: seq<ReplayEntry>, k: nat, threshold: int)
    requires Increasing(ledger) && k <= |ledger|
    requires forall i :: 0 <= i < k ==> ledger[i].sequence < threshold
    requires forall i :: k <= i < |ledger| ==> ledger[i].sequence >= threshold
    ensures RetainFrom(ledger, threshold) == ledger[k..]
  {
    if ledger != [] {
      var n := |ledger| - 1;
      var rest := ledger[..n];
      assert forall i :: 0 <= i < n ==> rest[i] == ledger[i];
      if k <= n {
        RetainSuffixAt(rest, k, threshold);
        assert ledger[k..] == rest[k..] + [ledger[n]];
      } else {
        RetainSuffixAt(rest, n, threshold);
        assert ledger[k..] == [] && rest[n..] == [];
      }
    }
  }

  /** The newest entries of a growing list, as many as the ledger holds. */
  function Newest<T>(entries: seq<T>): seq<T> {
    if |entries| <= REPLAY_LEDGER_CAPACITY then entries else entries[|entries| - REPLAY_LEDGER_CAPACITY..]
  }

  lemma GrowsIncreasing(ledger: seq<ReplayEntry>, entry: ReplayEntry)
    requires Increasing(ledger)
    requires ledger != [] ==> ledger[|ledger| - 1].sequence < entry.sequence
    ensures Increasing(ledger + [entry])
  {
  }

  lemma LedgerKeepsNewest(ledger: seq<ReplayEntry>, entry: ReplayEntry)
    requires Increasing(ledger) && |ledger| <= REPLAY_LEDGER_CAPACITY
    requires ledger != [] ==> ledger[|ledger| - 1].sequence < entry.sequence
    ensures TrimLedger(InsertInKeyOrder(ledger, entry)) == Newest(ledger + [entry])
    ensures Increasing(ledger + [entry])
  {
    var grown := ledger + [entry];
    GrowsIncreasing(ledger, entry);
    if |grown| >= REPLAY_LEDGER_CAPACITY {
      var k := |grown| - REPLAY_LEDGER_CAPACITY;
      assert forall i :: k <= i < |grown| ==> grown[i].sequence >= grown[k].sequence;
      RetainSuffixAt(grown, k, grown[k].sequence);
    }
  }

  // ---------- Evaluation ----------

  /** The observation of this scope contradicts itself. */
  predicate Contradictory(p: HealthProjection, scope: AlertScope)
    requires WellFormed(p)
  {
    ScopeDisabled(p, scope) && ScopeStatus(p, scope) == Healthy
  }

  ghost predicate LawfulTransitions(health: HealthTransitions, n: nat) {
    && (forall scope: AlertScope :: scope in health <==> Visited(scope, n))
    && (forall scope :: scope in health ==> health[scope].state.Valid() && LawfulTransition(health[scope]))
  }

  /** Evaluating a scope fails exactly when its observation contradicts itself. */
  ghost predicate ScopeAnswers(p: HealthProjection, scope: AlertScope, r: Result<HealthTransition, Rejection>)
    requires WellFormed(p)
  {
    if Contradictory(p, scope) then r == Failure(MALFORMED)
    else r.Success? && r.value.state.Valid() && LawfulTransition(r.value)
  }

  lemma ScopeEvaluates(db: Db, p: HealthProjection, scope: AlertScope)
    requires EvaluationOk(db.evaluation) && AlertsOk(db.alerts) && WellFormed(p)
    requires scope != Sampling
    ensures ScopeAnswers(p, scope, EvaluateScope(db, p, scope))
  {
    ActiveHealthIsRead(db, scope);
  }

  /** One of the first `n` scopes contradicts itself. */
  predicate AnyContradictory(p: HealthProjection, n: nat)
    requires WellFormed(p) && n <= HEALTH_SCOPE_COUNT
  {
    n > 0 && (AnyContradictory(p, n - 1) || Contradictory(p, HealthScopeAt(n - 1)))
  }

  ghost predicate ScopesAnswer(p: HealthProjection, n: nat, r: Result<HealthTransitions, Rejection>)
    requires WellFormed(p) && n <= HEALTH_SCOPE_COUNT
  {
    match r
    case Failure(e) => AnyContradictory(p, n) && e == MALFORMED
    case Success(health) => !AnyContradictory(p, n) && LawfulTransitions(health, n)
  }

  lemma OneMoreTransition(health: HealthTransitions, n: nat, t: HealthTransition)
    requires n < HEALTH_SCOPE_COUNT
    requires LawfulTransitions(health, n) && t.state.Valid() && LawfulTransition(t)
    ensures LawfulTransitions(health[HealthScopeAt(n) := t], n + 1)
  {
    forall scope: AlertScope
      ensures Visited(scope, n + 1) <==> Visited(scope, n) || scope == HealthScopeAt(n)
    {
    }
  }

  lemma NoScopeAnswers(p: HealthProjection)
    requires WellFormed(p)
    ensures ScopesAnswer(p, 0, Success(map[]))
  {
  }

  /** One more scope is evaluated after the first `n`. */
  lemma OneMoreAnswers(
    p: HealthProjection, n: nat, before: Result<HealthTransitions, Rejection>, last: Result<HealthTransition, Rejection>)
    requires WellFormed(p) && n < HEALTH_SCOPE_COUNT
    requires ScopesAnswer(p, n, before) && ScopeAnswers(p, HealthScopeAt(n), last)
    ensures before.Failure? ==> ScopesAnswer(p, n + 1, before)
    ensures before.Success? && last.Failure? ==> ScopesAnswer(p, n + 1, Failure(last.error))
    ensures before.Success? && last.Success? ==>
              ScopesAnswer(p, n + 1, Success(before.value[HealthScopeAt(n) := last.value]))
  {
    hide Contradictory, LawfulTransitions, LawfulTransition, WellFormed;
    if before.Success? && last.Success? {
      OneMoreTransition(before.value, n, last.value);
    }
  }

  lemma {:induction false} ScopesEvaluate(db: Db, p: HealthProjection, n: nat)
    requires EvaluationOk(db.evaluation) && AlertsOk(db.alerts) && WellFormed(p)
    requires n <= HEALTH_SCOPE_COUNT
    ensures ScopesAnswer(p, n, EvaluateScopes(db, p, n))
  {
    hide ScopesAnswer, ScopeAnswers, EvaluateScope, AlertsOk, WellFormed, Readable, Visited;
    if n == 0 {
      NoScopeAnswers(p);
    } else {
      var scope := HealthScopeAt(n - 1);
      ScopesEvaluate(db, p, n - 1);
      ScopeEvaluates(db, p, scope);
      OneMoreAnswers(p, n - 1, EvaluateScopes(db, p, n - 1), EvaluateScope(db, p, scope));
    }
  }

  lemma ContradictoryScopes(p: HealthProjection)
    requires WellFormed(p)
    ensures DisabledButHealthy(p) <==> AnyContradictory(p, HEALTH_SCOPE_COUNT)
  {
    assert !Contradictory(p, Overall);
    forall i: nat | i < COMPONENT_COUNT
      ensures Contradictory(p, Component(ComponentAt(i))) <==>
                p.components[i].IntentionallyDisabled() && p.components[i].status == Healthy
    {
      assert ComponentIndex(ComponentAt(i)) == i;
    }
    assert AnyContradictory(p, 1) == false;
    assert AnyContradictory(p, 2) == Contradictory(p, Component(ComponentAt(0)));
    assert AnyContradictory(p, 3) == (AnyContradictory(p, 2) || Contradictory(p, Component(ComponentAt(1))));
    assert AnyContradictory(p, 4) == (AnyContradictory(p, 3) || Contradictory(p, Component(ComponentAt(2))));
    assert AnyContradictory(p, 5) == (AnyContradictory(p, 4) || Contradictory(p, Component(ComponentAt(3))));
  }

  // ---------- Deciding ----------

  /** The sample that an accepted observation is compared with is there and readable. */
  lemma BaselineIsRead(hash: Hash, db: Db)
    requires Sound(hash, db)
    ensures BaselineReference(hash, db) == Success(Baseline(db.evaluation))
    ensures Baseline(db.evaluation).Some? ==> db.checkpoint.last.Some?
  {
    assert Overall in db.evaluation;
    assert References(db) == {Baseline(db.evaluation)};
  }

  predicate StoresSoundly(db: Db, d: StorageDecision)
    requires HasEveryScope(db.evaluation)
  {
    && (d.storedKind.None? ==> Baseline(db.evaluation).Some? && d.outcome == StateOnly)
    && d.outcome != Replayed
    && (d.updatesBaseline || (db.checkpoint.last.Some? && Baseline(db.evaluation).None?))
  }

  lemma StorageIsDecided(hash: Hash, db: Db, p: HealthProjection)
    requires Sound(hash, db)
    ensures DecideStorage(hash, db, p).Success?
    ensures StoresSoundly(db, DecideStorage(hash, db, p).value)
    ensures StoresSoundly(db, ForceTransition(DecideStorage(hash, db, p).value))
  {
    hide ValidProjection, SamplesOk, AlertsOk, Readable, BaselineReference, SameHealth, HeartbeatDue, ReadCheckpoint, LedgerOk;
    BaselineIsRead(hash, db);
  }

  lemma GapIsEvaluated(hash: Hash, db: Db, p: HealthProjection)
    requires Sound(hash, db) && WellFormed(p)
    ensures EvaluateGap(db, p).Success? && EvaluateGap(db, p).value.state.Valid()
  {
    assert Sampling in db.evaluation && Readable(Sampling, db.evaluation[Sampling]);
  }

  /** Decisions whose evaluation rows and sample can be written. */
  ghost predicate Writable(db: Db, d: Decisions)
    requires HasEveryScope(db.evaluation)
  {
    && LawfulTransitions(d.health, HEALTH_SCOPE_COUNT)
    && d.gap.state.Valid()
    && StoresSoundly(db, d.storage)
  }

  /** Decisions whose alert plans can be persisted. */
  ghost predicate Plannable(db: Db, p: HealthProjection, d: Decisions) {
    && AllReady(db.alerts, d.plans, p.recordedAt)
    && (forall i :: 0 <= i < |d.plans| ==> NextGeneration(db.alerts, d.plans[i]))
    && (d.storage.storedKind.None? ==> !AnyNeedsSample(d.plans))
  }

  lemma DecisionsAreSound(hash: Hash, db: Db, p: HealthProjection)
    requires Sound(hash, db) && WellFormed(p) && Settled(db, p.recordedAt)
    ensures var r := Decide(hash, db, p);
            if DisabledButHealthy(p) then r == Failure(MALFORMED)
            else match r
                 case Success(d) => Writable(db, d) && Plannable(db, p, d)
                 case Failure(e) => e == EXHAUSTED && GenerationsUsedUp(db.alerts)
  {
    hide Sound, WellFormed, Settled, DisabledButHealthy, AnyContradictory, HasEveryScope, EvaluateScopes, EvaluateGap, DecideStorage,
      PlanAlerts, PlansOrExhausted, StoresSoundly, ForceTransition, AnyNeedsSample, LawfulTransitions, Writable, Plannable,
      GenerationsUsedUp;
    ContradictoryScopes(p);
    SoundParts(hash, db);
    SettledParts(db, p.recordedAt);
    ScopesEvaluate(db, p, HEALTH_SCOPE_COUNT);
    if !DisabledButHealthy(p) {
      var health := EvaluateScopes(db, p, HEALTH_SCOPE_COUNT).value;
      LawfulParts(health);
      GapIsEvaluated(hash, db, p);
      StorageIsDecided(hash, db, p);
      var gap := EvaluateGap(db, p).value;
      AlertsArePlanned(db, health, gap, p);
      DecisionsFit(db, p, health, gap, DecideStorage(hash, db, p).value, PlanAlerts(db, health, gap, p));
    }
  }

  lemma SoundParts(hash: Hash, db: Db)
    requires Sound(hash, db)
    ensures EvaluationOk(db.evaluation) && AlertsOk(db.alerts) && HasEveryScope(db.evaluation)
  {
    hide AlertsOk, LedgerOk, SamplesOk, BaselineOk, Readable;
  }

  lemma SettledParts(db: Db, now: int)
    requires Settled(db, now)
    ensures IsTimestamp(now)
  {
  }

  lemma LawfulParts(health: HealthTransitions)
    requires LawfulTransitions(health, HEALTH_SCOPE_COUNT)
    ensures forall scope: AlertScope :: Visited(scope, HEALTH_SCOPE_COUNT) ==> scope in health && LawfulTransition(health[scope])
  {
  }

  /** Lawful verdicts, sound storage and ready plans make decisions that can be written. */
  lemma DecisionsFit(
    db: Db, p: HealthProjection, health: HealthTransitions, gap: GapTransition, storage: StorageDecision,
    plans: Result<seq<AlertPlan>, Rejection>)
    requires HasEveryScope(db.evaluation) && LawfulTransitions(health, HEALTH_SCOPE_COUNT) && gap.state.Valid()
    requires StoresSoundly(db, storage) && StoresSoundly(db, ForceTransition(storage))
    requires PlansOrExhausted(db, plans, FirstScopes(HEALTH_SCOPE_COUNT) + iset{Sampling}, p.recordedAt)
    ensures match plans
            case Failure(e) => e == EXHAUSTED && GenerationsUsedUp(db.alerts)
            case Success(planned) =>
              var d := Decisions(
                health, gap, planned, if AnyNeedsSample(planned) then ForceTransition(storage) else storage);
              Writable(db, d) && Plannable(db, p, d)
  {
    hide HasEveryScope, LawfulTransitions, AllReady, AnyNeedsSample, NextGeneration, FirstScopes, StoresSoundly;
  }

  // ---------- Writing ----------

  lemma EvaluationIsWritten(
    db: Db, health: HealthTransitions, gap: GapTransition, baseline: Option<int>, heartbeat: Option<int>)
    requires EvaluationOk(db.evaluation)
    requires LawfulTransitions(health, HEALTH_SCOPE_COUNT)
    requires gap.state.Valid()
    requires baseline.Some? ==> baseline.value >= 1 && heartbeat.Some?
    requires heartbeat.Some? ==> IsTimestamp(heartbeat.value)
    ensures var after := WriteEvaluationRows(db, health, gap, baseline, heartbeat).evaluation;
            && EvaluationOk(after)
            && Baseline(after) == (if baseline.Some? then baseline else Baseline(db.evaluation))
  {
    var after := WriteEvaluationRows(db, health, gap, baseline, heartbeat).evaluation;
    assert HasEveryScope(after);
    forall scope | scope in after
      ensures Readable(scope, after[scope])
      ensures after[scope].lastSample == Baseline(after)
    {
      assert scope in health <==> scope != Sampling;
      assert Readable(scope, db.evaluation[scope]);
    }
  }

  lemma EvaluationIsRecorded(db: Db, p: HealthProjection, d: Decisions)
    requires EvaluationOk(db.evaluation) && Writable(db, d) && IsTimestamp(p.recordedAt)
    requires forall id :: id in db.samples ==> id >= 1
    requires BaselineOk(db.evaluation, db.samples)
    ensures EvaluationOk(Recorded(db, p, d).evaluation)
    ensures BaselineOk(Recorded(db, p, d).evaluation, Recorded(db, p, d).samples)
  {
    var sample := SampleReference(db, d);
    var stored :=
      if sample.Some? then db.(samples := db.samples[sample.value := SampleOf(p, d.storage.storedKind.value)])
      else db;
    EvaluationIsWritten(
      stored, d.health, d.gap,
      if d.storage.updatesBaseline then sample else None,
      if sample.Some? then Some(p.recordedAt) else None);
  }

  /** A valid projection comes back from the row it is stored in, and fits the ledger. */
  lemma ValidParts(hash: Hash, p: HealthProjection)
    requires ValidProjection(hash, p)
    ensures IsTimestamp(p.recordedAt) && EntryOf(p).Valid()
    ensures forall kind :: RowProjection(SampleOf(p, kind)) == p
  {
  }

  lemma SamplesAreRecorded(hash: Hash, db: Db, p: HealthProjection, d: Decisions)
    requires SamplesOk(hash, db.checkpoint.last, db.samples) && ValidProjection(hash, p) && IsNew(db, p)
    ensures SamplesUpTo(hash, Recorded(db, p, d).samples, p.sequence)
    ensures SequenceUnused(db, p)
    ensures forall id :: id in db.samples ==> id >= 1
  {
    hide ValidProjection;
    ValidParts(hash, p);
  }

  lemma PlansArePersisted(db: Db, p: HealthProjection, d: Decisions)
    requires AlertsOk(db.alerts) && Plannable(db, p, d) && IsTimestamp(p.recordedAt)
    ensures var alerted := PersistPlans(Recorded(db, p, d), d.plans, p.recordedAt, SampleReference(db, d));
            alerted.Success? && AlertsOk(alerted.value.alerts)
  {
    var recorded, sample := Recorded(db, p, d), SampleReference(db, d);
    forall i | 0 <= i < |d.plans|
      ensures SampleAvailable(recorded, d.plans[i], sample)
    {
    }
    ReadyPlansPersist(recorded, d.plans, p.recordedAt, sample);
  }

  ghost predicate YieldsSound(hash: Hash, r: Result<Db, Rejection>) {
    match r
    case Success(after) => Sound(hash, after)
    case Failure(_) => false
  }

  lemma LedgerIsWritten(c: Checkpoint, ledger: seq<ReplayEntry>, entry: ReplayEntry)
    requires LedgerOk(c, ledger) && entry.Valid()
    requires c.last.Some? ==> c.last.value.sequence < entry.sequence
    ensures var after := TrimLedger(InsertInKeyOrder(ledger, entry));
            && LedgerOk(Checkpoint(Some(entry), Saturated(c.acceptedCount + 1)), after)
            && after == Newest(ledger + [entry])
  {
    LedgerKeepsNewest(ledger, entry);
    var grown := ledger + [entry];
    assert forall i :: 0 <= i < |grown| ==> grown[i].Valid();
    assert grown[|grown| - 1] == entry;
  }

  lemma CheckpointIsWritten(hash: Hash, db: Db, p: HealthProjection)
    requires LedgerOk(db.checkpoint, db.ledger) && EvaluationOk(db.evaluation) && AlertsOk(db.alerts)
    requires BaselineOk(db.evaluation, db.samples)
    requires SamplesUpTo(hash, db.samples, p.sequence)
    requires EntryOf(p).Valid() && IsNew(db, p)
    ensures YieldsSound(hash, WriteCheckpoint(db, p))
  {
    LedgerIsWritten(db.checkpoint, db.ledger, EntryOf(p));
    hide LedgerOk, EvaluationOk, AlertsOk, BaselineOk, SamplesUpTo, TrimLedger, InsertInKeyOrder;
  }

  lemma WriteIsSound(hash: Hash, db: Db, p: HealthProjection, d: Decisions)
    requires Sound(hash, db) && ValidProjection(hash, p) && IsNew(db, p)
    requires Writable(db, d) && Plannable(db, p, d)
    ensures YieldsSound(hash, Write(db, p, d))
  {
    hide ValidProjection, LedgerOk, EvaluationOk, BaselineOk, SamplesUpTo, SamplesOk, AlertsOk;
    hide Plannable, Writable, PersistPlans, Recorded, WriteCheckpoint, SequenceUnused, YieldsSound;
    ValidParts(hash, p);
    SamplesAreRecorded(hash, db, p, d);
    EvaluationIsRecorded(db, p, d);
    PlansArePersisted(db, p, d);
    CheckpointIsWritten(
      hash, PersistPlans(Recorded(db, p, d), d.plans, p.recordedAt, SampleReference(db, d)).value, p);
  }

  // ---------- The theorem ----------

  lemma ArchivedIsSound(hash: Hash, db: Db, now: int)
    requires Sound(hash, db) && IsTimestamp(now)
    ensures ArchiveEligible(db, now).Success?
    ensures var after := ArchiveEligible(db, now).value;
            Sound(hash, after) && Settled(after, now) && OnlyArchives(db.alerts, after.alerts, now)
  {
    ArchivalSucceeds(db, now);
  }

  lemma ArchivalKeepsGenerations(before: map<int, AlertRow>, after: map<int, AlertRow>, now: int)
    requires OnlyArchives(before, after, now)
    ensures GenerationsUsedUp(after) ==> GenerationsUsedUp(before)
  {
    if id :| id in after && after[id].state.generation == MAX_BOUNDED_COUNTER {
      assert before[id].state.generation == MAX_BOUNDED_COUNTER;
    }
  }

  /** Archival touches neither the checkpoint nor a generation. */
  lemma ArchivalLeaves(db: Db, archived: Db, p: HealthProjection)
    requires IsTimestamp(p.recordedAt) && ArchiveEligible(db, p.recordedAt) == Success(archived)
    requires OnlyArchives(db.alerts, archived.alerts, p.recordedAt)
    ensures IsNew(archived, p) == IsNew(db, p)
    ensures GenerationsUsedUp(archived.alerts) ==> GenerationsUsedUp(db.alerts)
  {
    hide ArchiveEligible, OnlyArchives, GenerationsUsedUp;
    ArchivalKeepsGenerations(db.alerts, archived.alerts, p.recordedAt);
  }

  lemma WritableIsNoReplay(db: Db, d: Decisions)
    requires HasEveryScope(db.evaluation) && Writable(db, d)
    ensures d.storage.outcome != Replayed
  {
  }

  lemma ValidIsWellFormed(hash: Hash, p: HealthProjection)
    requires ValidProjection(hash, p)
    ensures WellFormed(p) && IsTimestamp(p.recordedAt)
  {
  }

  lemma AdvanceIsSound(hash: Hash, db: Db, p: HealthProjection)
    requires Sound(hash, db) && ValidProjection(hash, p) && IsNew(db, p)
    ensures var r := Advance(hash, db, p);
            if DisabledButHealthy(p) then r == Failure(MALFORMED)
            else match r
                 case Success((after, outcome)) => Sound(hash, after) && outcome != Replayed
                 case Failure(e) => e == EXHAUSTED && GenerationsUsedUp(db.alerts)
  {
    hide Sound, ValidProjection, WellFormed, ArchiveEligible, Decide, Write, DisabledButHealthy, Settled, OnlyArchives,
      HasEveryScope, Writable, Plannable, IsNew, GenerationsUsedUp, SameApartFromAlerts;
    ValidIsWellFormed(hash, p);
    SoundParts(hash, db);
    ArchivedIsSound(hash, db, p.recordedAt);
    var archived := ArchiveEligible(db, p.recordedAt).value;
    DecisionsAreSound(hash, archived, p);
    SoundParts(hash, archived);
    ArchivalLeaves(db, archived, p);
    if Decide(hash, archived, p).Success? {
      var d := Decide(hash, archived, p).value;
      WriteIsSound(hash, archived, p, d);
      WritableIsNoReplay(archived, d);
    }
  }

  lemma GuardsPass(hash: Hash, db: Db, p: HealthProjection)
    requires Sound(hash, db) && WellFormed(p)
    ensures ReadCheckpoint(db.checkpoint).Pass? && ValidateReplayAnchor(db).Pass? && ReadEvaluationRows(db).Pass?
    ensures IsNew(db, p) ==> ReplayOrStale(db, p) == Success(false)
    ensures !IsNew(db, p) ==>
              || ReplayOrStale(db, p) == Success(true)
              || ReplayOrStale(db, p) == Failure(Rejection(StaleSequence, false))
              || ReplayOrStale(db, p) == Failure(Rejection(SequenceConflict, false))
  {
  }

  /** The answers that leave the database alone. */
  predicate LeavesTables(result: IngestionResult) {
    result.Rejected? || result == Accepted(Replayed)
  }

  /** An old sequence is answered from the ledger. */
  lemma OldChangesNothing(hash: Hash, db: Db, p: HealthProjection)
    requires Sound(hash, db) && ValidProjection(hash, p) && !IsNew(db, p)
    ensures Ingest(hash, db, p).db == db
    ensures Ingest(hash, db, p).result in {
              Accepted(Replayed),
              Rejected(Rejection(StaleSequence, false)),
              Rejected(Rejection(SequenceConflict, false))}
  {
    hide Sound, ValidProjection, WellFormed, IsNew, HasEveryScope, Advance;
    hide ReadCheckpoint, ValidateReplayAnchor, ReplayOrStale, ReadEvaluationRows;
    ValidIsWellFormed(hash, p);
    SoundParts(hash, db);
    GuardsPass(hash, db, p);
  }

  /** A new sequence gets past the guards to the writing stage. */
  lemma NewAdvances(hash: Hash, db: Db, p: HealthProjection)
    requires Sound(hash, db) && ValidProjection(hash, p) && IsNew(db, p)
    ensures WellFormed(p) && HasEveryScope(db.evaluation)
    ensures Ingest(hash, db, p) ==
              match Advance(hash, db, p)
              case Success((next, outcome)) => Ingested(next, Accepted(outcome))
              case Failure(rejection) => Ingested(db, Rejected(rejection))
  {
    hide Sound, ValidProjection, WellFormed, IsNew, HasEveryScope, Advance;
    hide ReadCheckpoint, ValidateReplayAnchor, ReplayOrStale, ReadEvaluationRows;
    ValidIsWellFormed(hash, p);
    SoundParts(hash, db);
    GuardsPass(hash, db, p);
  }

  lemma InvalidIsRefused(hash: Hash, db: Db, p: HealthProjection)
    requires !ValidProjection(hash, p)
    ensures Ingest(hash, db, p) == Ingested(db, Rejected(Rejection(InvalidProjection, false)))
  {
    hide ValidProjection;
  }

  /**
   * What one submission does to a sound database.  A new and valid observation is accepted,
   * unless some alert has used up its generations or the observation contradicts itself; only the
   * last case is answered with a loss of trust, and no other answer ever is.
   */
  lemma IngestionKeepsTrust(hash: Hash, db: Db, p: HealthProjection)
    requires Sound(hash, db)
    ensures Sound(hash, Ingest(hash, db, p).db)
    ensures LeavesTables(Ingest(hash, db, p).result) ==> Ingest(hash, db, p).db == db
    ensures !ValidProjection(hash, p) ==>
              Ingest(hash, db, p).result == Rejected(Rejection(InvalidProjection, false))
    ensures ValidProjection(hash, p) && !IsNew(db, p) ==>
              Ingest(hash, db, p).result in {
                Accepted(Replayed),
                Rejected(Rejection(StaleSequence, false)),
                Rejected(Rejection(SequenceConflict, false))}
    ensures ValidProjection(hash, p) && IsNew(db, p) ==>
              if DisabledButHealthy(p) then Ingest(hash, db, p).result == Rejected(MALFORMED)
              else
                || (Ingest(hash, db, p).result == Rejected(EXHAUSTED) && GenerationsUsedUp(db.alerts))
                || !LeavesTables(Ingest(hash, db, p).result)
  {
    hide Sound, ValidProjection, DisabledButHealthy, IsNew, Ingest, Advance;
    if !ValidProjection(hash, p) {
      InvalidIsRefused(hash, db, p);
    } else if IsNew(db, p) {
      NewAdvances(hash, db, p);
      AdvanceIsSound(hash, db, p);
    } else {
      OldChangesNothing(hash, db, p);
    }
  }
}
