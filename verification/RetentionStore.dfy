/** One retention cleanup as a transaction on the tables, under a clock that may run out anywhere. */
module RetentionStore {
  import opened Wrappers
  import opened HealthModels
  import opened Projection
  import opened RowOrder
  import opened HistoryTables
  import opened HistoryStore
  import opened Queries
  import opened Retention
  import opened RetentionRuns
  import opened MixedRuns
  import opened RetentionEffects

  const MIN_RETENTION_DAYS: int := 1
  const MAX_RETENTION_DAYS: int := 365
  const MICROSECONDS_PER_DAY: int := 86_400_000_000

  datatype MaintenanceRejection = InvalidMaintenance | TimedOut | MalformedRows

  datatype CleanupResult = CleanupResult(noWork: bool, samples: nat, events: nat, alerts: nat)

  predicate ValidRequest(now: int, days: int) {
    IsTimestamp(now) && MIN_RETENTION_DAYS <= days <= MAX_RETENTION_DAYS
  }

  function Cutoff(now: int, days: int): int {
    now - days * MICROSECONDS_PER_DAY
  }

  /** How many of the actions delete a sample, an event, and an alert. */
  function Counts(actions: seq<Deletion>): (nat, nat, nat) {
    if actions == [] then (0, 0, 0)
    else
      var (samples, events, alerts) := Counts(actions[..|actions| - 1]);
      match actions[|actions| - 1]
      case DeleteSample(_) => (samples + 1, events, alerts)
      case DeleteEvent(_, _) => (samples, events + 1, alerts)
      case DeleteAlert(_) => (samples, events, alerts + 1)
  }

  lemma {:induction false} CountsAddUp(actions: seq<Deletion>)
    ensures var (samples, events, alerts) := Counts(actions); samples + events + alerts == |actions|
  {
    if actions != [] {
      CountsAddUp(actions[..|actions| - 1]);
    }
  }

  lemma OneRowLess<V>(rows: map<int, V>, id: int)
    requires id in rows
    ensures |rows - {id}| == |rows| - 1
  {
    assert (rows - {id}).Keys == rows.Keys - {id};
    assert |(rows - {id}).Keys| == |rows - {id}| && |rows.Keys| == |rows|;
  }

  lemma AsManyRows<V>(a: map<int, V>, b: map<int, V>)
    requires a.Keys == b.Keys
    ensures |a| == |b|
  {
    assert |a.Keys| == |a| && |b.Keys| == |b|;
  }

  lemma RowsGone(db: Db, action: Deletion, cutoff: int)
    requires Delete(db, action, cutoff).Some?
    ensures var after := Delete(db, action, cutoff).value;
            && |after.samples| == |db.samples| - (if action.DeleteSample? then 1 else 0)
            && |after.events| == |db.events| - (if action.DeleteEvent? then 1 else 0)
            && |after.alerts| == |db.alerts| - (if action.DeleteAlert? then 1 else 0)
  {
    hide EventKeys, SampleExpired, AlertExpired, ForgetInAlert, ForgetInEvent, ForgetInEvaluation;
    var after := Delete(db, action, cutoff).value;
    match action {
      case DeleteSample(id) =>
        OneRowLess(db.samples, id);
        AsManyRows(after.events, db.events);
        AsManyRows(after.alerts, db.alerts);
      case DeleteEvent(id, _) => OneRowLess(db.events, id);
      case DeleteAlert(id) => OneRowLess(db.alerts, id);
    }
  }

  /** The counts are how many rows of each table are gone. */
  lemma {:induction false} CountsAreRowsGone(db: Db, actions: seq<Deletion>, cutoff: int)
    requires DeleteAll(db, actions, cutoff).Some?
    ensures var after := DeleteAll(db, actions, cutoff).value;
            Counts(actions) == (|db.samples| - |after.samples|, |db.events| - |after.events|, |db.alerts| - |after.alerts|)
  {
    hide Delete;
    if actions != [] {
      var n := |actions| - 1;
      assert actions == actions[..n] + [actions[n]];
      DeleteAllInTwo(db, actions[..n], [actions[n]], cutoff);
      CountsAreRowsGone(db, actions[..n], cutoff);
      var before := DeleteAll(db, actions[..n], cutoff).value;
      assert DeleteAll(before, [actions[n]], cutoff) == Delete(before, actions[n], cutoff);
      RowsGone(before, actions[n], cutoff);
    }
  }

  // ---------- The deadline ----------

  const MAINTENANCE_SECONDS: real := 1.0

  /** What a clock shows at each reading; the first one sets the deadline. */
  type Clock = nat -> real

  predicate LateAt(clock: Clock, n: nat) {
    clock(n) >= clock(0) + MAINTENANCE_SECONDS
  }

  /** None of the readings from one on and before another is late. */
  ghost predicate InTime(clock: Clock, from: nat, to: nat) {
    forall n :: from <= n < to ==> !LateAt(clock, n)
  }

  lemma InTimeThroughout(clock: Clock, from: nat, middle: nat, to: nat)
    requires from <= middle <= to
    ensures InTime(clock, from, to) <==> InTime(clock, from, middle) && InTime(clock, middle, to)
  {
  }

  class Deadline {
    const clock: Clock
    const deadline: real
    var readings: nat

    ghost predicate Valid() {
      deadline == clock(0) + MAINTENANCE_SECONDS
    }

    constructor (clock: Clock)
      ensures Valid() && this.clock == clock && readings == 1
    {
      this.clock, deadline, readings := clock, clock(0) + MAINTENANCE_SECONDS, 1;
    }

    method Passed() returns (late: bool)
      requires Valid()
      modifies this
      ensures late == LateAt(clock, old(readings)) && readings == old(readings) + 1
    {
      late := clock(readings) >= deadline;
      readings := readings + 1;
    }
  }

  // ---------- What a cleanup reads, and how often it looks at the clock ----------

  /** The first expired samples. */
  function SampleRows(db: Db, cutoff: int): (rows: seq<RowKey>)
    ensures forall i :: 0 <= i < |rows| ==> rows[i].2 in db.samples
  {
    Fetch(SampleKeys(db, cutoff), RETENTION_ROW_BUDGET)
  }

  /** The first expired archived alerts. */
  function AlertRows(db: Db, cutoff: int): (rows: seq<RowKey>)
    ensures forall i :: 0 <= i < |rows| ==> rows[i].2 in db.alerts
  {
    Fetch(AlertKeys(db, cutoff), RETENTION_ROW_BUDGET)
  }

  /** The first events of an alert: one more than the budget, to see whether all fit. */
  function EventRows(db: Db, alertId: int, budget: nat): (rows: seq<RowKey>)
    ensures forall i :: 0 <= i < |rows| ==> rows[i].2 in db.events
  {
    Fetch(EventKeys(db, alertId), budget + 1)
  }

  predicate SamplesReadable(hash: Hash, samples: map<int, SampleRow>, rows: seq<RowKey>) {
    forall i :: 0 <= i < |rows| ==> rows[i].2 in samples && SampleReadable(hash, rows[i].2, samples[rows[i].2])
  }

  predicate AlertsReadable(samples: set<int>, alerts: map<int, AlertRow>, rows: seq<RowKey>) {
    forall i :: 0 <= i < |rows| ==> rows[i].2 in alerts && AlertReadable(samples, rows[i].2, alerts[rows[i].2])
  }

  predicate RowsReadable(samples: set<int>, events: map<int, EventRow>, rows: seq<RowKey>) {
    forall i :: 0 <= i < |rows| ==> rows[i].2 in events && EventReadable(samples, rows[i].2, events[rows[i].2])
  }

  /** The events of every alert that the budget reaches, one more than the budget at most, are readable. */
  predicate EventsReadable(db: Db, candidates: seq<RowKey>, budget: nat) {
    if candidates == [] || budget == 0 then true
    else
      var k, rest := candidates[0], candidates[1..];
      if k.1 == SAMPLE_TYPE then EventsReadable(db, rest, budget - 1)
      else
        && RowsReadable(db.samples.Keys, db.events, EventRows(db, k.2, budget))
        && EventsReadable(db, rest, budget - |AlertDeletions(db, k.2, budget)|)
  }

  predicate CandidatesReadable(hash: Hash, db: Db, cutoff: int) {
    && SamplesReadable(hash, db.samples, SampleRows(db, cutoff))
    && AlertsReadable(db.samples.Keys, db.alerts, AlertRows(db, cutoff))
  }

  /** Every row that a cleanup fetches is readable. */
  predicate FetchedReadable(hash: Hash, db: Db, cutoff: int) {
    CandidatesReadable(hash, db, cutoff) && EventsReadable(db, Candidates(db, cutoff), RETENTION_ROW_BUDGET)
  }

  function CandidateLooks(db: Db, cutoff: int): nat {
    4 + 2 * |SampleRows(db, cutoff)| + 2 * |AlertRows(db, cutoff)|
  }

  /** The looks at the clock for the events of one alert: around the fetch, around each row, at each selected row. */
  function AlertLooks(db: Db, alertId: int, budget: nat): nat {
    var events := EventRows(db, alertId, budget);
    2 + 2 * |events| + |Limit(events, budget)|
  }

  function PlanLooks(db: Db, candidates: seq<RowKey>, budget: nat): nat {
    if candidates == [] then 0
    else if budget == 0 then 1
    else
      var k, rest := candidates[0], candidates[1..];
      if k.1 == SAMPLE_TYPE then 1 + PlanLooks(db, rest, budget - 1)
      else 1 + AlertLooks(db, k.2, budget) + PlanLooks(db, rest, budget - |AlertDeletions(db, k.2, budget)|)
  }

  /** How often a cleanup looks at the clock before it commits: planning, one look for each deletion, a last one. */
  function LooksBeforeCommit(db: Db, cutoff: int): nat {
    CandidateLooks(db, cutoff) + PlanLooks(db, Candidates(db, cutoff), RETENTION_ROW_BUDGET) + |Plan(db, cutoff)| + 1
  }

  // ---------- Planning ----------

  /**
   * What a step answers that takes this many looks at the clock, from this reading on: its value
   * if all it reads is readable and no look is late, else one of the two reasons that apply.
   */
  ghost predicate Answers<T>(
    r: Result<T, MaintenanceRejection>, clock: Clock, from: nat, readings: nat, looks: nat, readable: bool, value: T)
  {
    match r
    case Success(answer) => answer == value && readable && readings == from + looks && InTime(clock, from, from + looks)
    case Failure(TimedOut) => !InTime(clock, from, from + looks)
    case Failure(e) => e == MalformedRows && !readable
  }

  lemma AnswersAtOnce<T>(clock: Clock, from: nat, value: T)
    ensures Answers(Success(value), clock, from, from, 0, true, value)
  {
  }

  /** A late look ends any step that still has to look at least once. */
  lemma LateAnswer<T>(clock: Clock, from: nat, readings: nat, looks: nat, readable: bool, value: T)
    requires looks >= 1 && LateAt(clock, from)
    ensures Answers(Failure(TimedOut), clock, from, readings, looks, readable, value)
  {
  }

  /** A step after a look in time. */
  lemma AnswersAfterLook<T>(
    r: Result<T, MaintenanceRejection>, clock: Clock, from: nat, readings: nat, looks: nat, readable: bool, value: T)
    requires !LateAt(clock, from) && Answers(r, clock, from + 1, readings, looks, readable, value)
    ensures Answers(r, clock, from, readings, 1 + looks, readable, value)
  {
    InTimeThroughout(clock, from, from + 1, from + 1 + looks);
  }

  /** A step that fails fails everything it is the beginning of. */
  lemma AnswersEarly<T, U>(
    r: Result<T, MaintenanceRejection>, clock: Clock, from: nat, readings: nat,
    looks: nat, readable: bool, value: T, more: nat, others: bool, whole: U)
    requires r.Failure? && Answers(r, clock, from, readings, looks, readable, value)
    ensures Answers(Failure(r.error), clock, from, readings, looks + more, readable && others, whole)
  {
    InTimeThroughout(clock, from, from + looks, from + looks + more);
  }

  /** A step after one that succeeded. */
  lemma AnswersThen<T, U>(
    first: T, clock: Clock, from: nat, middle: nat, looks: nat, readable: bool,
    r: Result<U, MaintenanceRejection>, readings: nat, more: nat, others: bool, value: U)
    requires Answers(Success(first), clock, from, middle, looks, readable, first)
    requires Answers(r, clock, middle, readings, more, others, value)
    ensures Answers(r, clock, from, readings, looks + more, readable && others, value)
  {
    InTimeThroughout(clock, from, middle, middle + more);
  }

  /** Validates the fetched sample rows. */
  method ReadSamples(store: Store, deadline: Deadline, hash: Hash, rows: seq<RowKey>) returns (r: Result<seq<RowKey>, MaintenanceRejection>)
    requires deadline.Valid() && forall i :: 0 <= i < |rows| ==> rows[i].2 in store.samples
    modifies deadline
    ensures Answers(
              r, deadline.clock, old(deadline.readings), deadline.readings,
              2 * |rows|, SamplesReadable(hash, store.samples, rows), rows)
  {
    hide SampleReadable, LateAt;
    var candidates: seq<RowKey> := [];
    for i := 0 to |rows|
      invariant candidates == rows[..i]
      invariant deadline.readings == old(deadline.readings) + 2 * i && InTime(deadline.clock, old(deadline.readings), deadline.readings)
      invariant SamplesReadable(hash, store.samples, rows[..i])
    {
      var k := rows[i];
      var late := deadline.Passed();
      if late {
        return Failure(TimedOut);
      }
      if !SampleReadable(hash, k.2, store.samples[k.2]) {
        return Failure(MalformedRows);
      }
      late := deadline.Passed();
      if late {
        return Failure(TimedOut);
      }
      candidates := candidates + [k];
    }
    assert rows[..|rows|] == rows;
    return Success(candidates);
  }

  /** Validates the fetched alert rows. */
  method ReadAlertRows(store: Store, deadline: Deadline, rows: seq<RowKey>) returns (r: Result<seq<RowKey>, MaintenanceRejection>)
    requires deadline.Valid() && forall i :: 0 <= i < |rows| ==> rows[i].2 in store.alerts
    modifies deadline
    ensures Answers(
              r, deadline.clock, old(deadline.readings), deadline.readings,
              2 * |rows|, AlertsReadable(store.samples.Keys, store.alerts, rows), rows)
  {
    hide AlertReadable, LateAt;
    var candidates: seq<RowKey> := [];
    for i := 0 to |rows|
      invariant candidates == rows[..i]
      invariant deadline.readings == old(deadline.readings) + 2 * i && InTime(deadline.clock, old(deadline.readings), deadline.readings)
      invariant AlertsReadable(store.samples.Keys, store.alerts, rows[..i])
    {
      var k := rows[i];
      var late := deadline.Passed();
      if late {
        return Failure(TimedOut);
      }
      if !AlertReadable(store.samples.Keys, k.2, store.alerts[k.2]) {
        return Failure(MalformedRows);
      }
      late := deadline.Passed();
      if late {
        return Failure(TimedOut);
      }
      candidates := candidates + [k];
    }
    assert rows[..|rows|] == rows;
    return Success(candidates);
  }

  /** Validates the fetched rows of one alert's events. */
  method ReadEvents(store: Store, deadline: Deadline, rows: seq<RowKey>) returns (r: Result<seq<RowKey>, MaintenanceRejection>)
    requires deadline.Valid() && forall i :: 0 <= i < |rows| ==> rows[i].2 in store.events
    modifies deadline
    ensures Answers(
              r, deadline.clock, old(deadline.readings), deadline.readings,
              2 * |rows|, RowsReadable(store.samples.Keys, store.events, rows), rows)
  {
    hide EventReadable, LateAt;
    var events: seq<RowKey> := [];
    for i := 0 to |rows|
      invariant events == rows[..i]
      invariant deadline.readings == old(deadline.readings) + 2 * i && InTime(deadline.clock, old(deadline.readings), deadline.readings)
      invariant RowsReadable(store.samples.Keys, store.events, rows[..i])
    {
      var k := rows[i];
      var late := deadline.Passed();
      if late {
        return Failure(TimedOut);
      }
      if !EventReadable(store.samples.Keys, k.2, store.events[k.2]) {
        return Failure(MalformedRows);
      }
      late := deadline.Passed();
      if late {
        return Failure(TimedOut);
      }
      events := events + [k];
    }
    assert rows[..|rows|] == rows;
    return Success(events);
  }

  lemma MergedIsSorted(a: seq<RowKey>, b: seq<RowKey>)
    ensures Sorted(set k | k in a + b) == Merged(a, b)
  {
    assert (set k | k in a + b) == (set k | k in a) + (set k | k in b);
    hide Sorted;
  }

  /** Sorts the candidates, between two looks at the clock. */
  method SortCandidates(deadline: Deadline, samples: seq<RowKey>, alerts: seq<RowKey>) returns (r: Result<seq<RowKey>, MaintenanceRejection>)
    requires deadline.Valid()
    modifies deadline
    ensures Answers(r, deadline.clock, old(deadline.readings), deadline.readings, 2, true, Merged(samples, alerts))
  {
    hide Sorted, Merged, LateAt;
    var late := deadline.Passed();
    if late {
      return Failure(TimedOut);
    }
    MergedIsSorted(samples, alerts);
    var candidates := Sorted(set k | k in samples + alerts);
    late := deadline.Passed();
    if late {
      return Failure(TimedOut);
    }
    return Success(candidates);
  }

  /** Validates the rows of both fetches and sorts them together. */
  method ReadCandidates(store: Store, deadline: Deadline, hash: Hash, sampleRows: seq<RowKey>, alertRows: seq<RowKey>)
    returns (r: Result<seq<RowKey>, MaintenanceRejection>)
    requires deadline.Valid()
    requires forall i :: 0 <= i < |sampleRows| ==> sampleRows[i].2 in store.samples
    requires forall i :: 0 <= i < |alertRows| ==> alertRows[i].2 in store.alerts
    modifies deadline
    ensures Answers(
              r, deadline.clock, old(deadline.readings), deadline.readings, 2 * |sampleRows| + (2 * |alertRows| + 2),
              SamplesReadable(hash, store.samples, sampleRows) && (AlertsReadable(store.samples.Keys, store.alerts, alertRows) && true),
              Merged(sampleRows, alertRows))
  {
    hide *;
    ghost var clock, from, value := deadline.clock, deadline.readings, Merged(sampleRows, alertRows);
    ghost var samplesOk := SamplesReadable(hash, store.samples, sampleRows);
    ghost var alertsOk := AlertsReadable(store.samples.Keys, store.alerts, alertRows);
    var samples := ReadSamples(store, deadline, hash, sampleRows);
    ghost var middle := deadline.readings;
    if samples.Failure? {
      AnswersEarly(samples, clock, from, middle, 2 * |sampleRows|, samplesOk, sampleRows, 2 * |alertRows| + 2, alertsOk && true, value);
      return Failure(samples.error);
    }
    AnswersIs(samples, clock, from, middle, 2 * |sampleRows|, samplesOk, sampleRows);
    var alerts := ReadAlertRows(store, deadline, alertRows);
    AnswersIs(alerts, clock, middle, deadline.readings, 2 * |alertRows|, alertsOk, alertRows);
    if alerts.Failure? {
      r := Failure(alerts.error);
      AnswersEarly(alerts, clock, middle, deadline.readings, 2 * |alertRows|, alertsOk, alertRows, 2, true, value);
    } else {
      ghost var last := deadline.readings;
      r := SortCandidates(deadline, samples.value, alerts.value);
      AnswersThen(alertRows, clock, middle, last, 2 * |alertRows|, alertsOk, r, deadline.readings, 2, true, value);
    }
    AnswersThen(
      sampleRows, clock, from, middle, 2 * |sampleRows|, samplesOk, r, deadline.readings, 2 * |alertRows| + 2, alertsOk && true, value);
  }

  lemma CandidateParts(hash: Hash, db: Db, cutoff: int)
    ensures var samples, alerts := SampleRows(db, cutoff), AlertRows(db, cutoff);
            && Candidates(db, cutoff) == Merged(samples, alerts)
            && CandidateLooks(db, cutoff) == 1 + (1 + (2 * |samples| + (2 * |alerts| + 2)))
            && (CandidatesReadable(hash, db, cutoff) <==>
                  SamplesReadable(hash, db.samples, samples) && (AlertsReadable(db.samples.Keys, db.alerts, alerts) && true))
  {
    hide Merged, SamplesReadable, AlertsReadable, SampleKeys, AlertKeys;
  }

  /** Collects the candidates of two bounded fetches. */
  method CollectCandidates(store: Store, deadline: Deadline, hash: Hash, cutoff: int) returns (r: Result<seq<RowKey>, MaintenanceRejection>)
    requires deadline.Valid()
    modifies deadline
    ensures Answers(
              r, deadline.clock, old(deadline.readings), deadline.readings, CandidateLooks(store.Tables(), cutoff),
              CandidatesReadable(hash, store.Tables(), cutoff), Candidates(store.Tables(), cutoff))
  {
    hide *;
    store.TablesHold();
    var db := store.Tables();
    ghost var clock, from, looks := deadline.clock, deadline.readings, CandidateLooks(db, cutoff);
    ghost var readable, value := CandidatesReadable(hash, db, cutoff), Candidates(db, cutoff);
    CandidateParts(hash, db, cutoff);
    var sampleRows := SampleRows(db, cutoff);
    var late := deadline.Passed();
    if late {
      LateAnswer(clock, from, deadline.readings, looks, readable, value);
      return Failure(TimedOut);
    }
    var alertRows := AlertRows(db, cutoff);
    late := deadline.Passed();
    if late {
      r := Failure(TimedOut);
      LateAnswer(clock, from + 1, deadline.readings, looks - 1, readable, value);
    } else {
      r := ReadCandidates(store, deadline, hash, sampleRows, alertRows);
      AnswersAfterLook(r, clock, from + 1, deadline.readings, looks - 2, readable, value);
    }
    AnswersAfterLook(r, clock, from, deadline.readings, looks - 1, readable, value);
  }

  /** The deletions of the selected events, each after a look at the clock. */
  method SelectEvents(deadline: Deadline, selected: seq<RowKey>, alertId: int) returns (r: Result<seq<Deletion>, MaintenanceRejection>)
    requires deadline.Valid()
    modifies deadline
    ensures Answers(
              r, deadline.clock, old(deadline.readings), deadline.readings, |selected|, true, EventDeletions(selected, alertId))
  {
    hide LateAt;
    var step: seq<Deletion> := [];
    for i := 0 to |selected|
      invariant step == EventDeletions(selected[..i], alertId)
      invariant deadline.readings == old(deadline.readings) + i && InTime(deadline.clock, old(deadline.readings), deadline.readings)
    {
      var late := deadline.Passed();
      if late {
        return Failure(TimedOut);
      }
      step := step + [DeleteEvent(selected[i].2, alertId)];
    }
    assert selected[..|selected|] == selected;
    return Success(step);
  }

  lemma AlertParts(db: Db, alertId: int, budget: nat)
    ensures var events := EventRows(db, alertId, budget);
            var selected := Limit(events, budget);
            && AlertLooks(db, alertId, budget) == 1 + (1 + (2 * |events| + |selected|))
            && AlertDeletions(db, alertId, budget) ==
                 (if |events| <= budget && |selected| < budget then EventDeletions(selected, alertId) + [DeleteAlert(alertId)]
                  else EventDeletions(selected, alertId))
  {
    hide EventKeys, Limit, EventDeletions;
  }

  lemma AnswersWith<T, U>(
    r: Result<T, MaintenanceRejection>, clock: Clock, from: nat, readings: nat, looks: nat, readable: bool, value: T, other: U)
    requires Answers(r, clock, from, readings, looks, readable, value)
    ensures Answers(if r.Success? then Success(other) else Failure(r.error), clock, from, readings, looks, readable, other)
  {
  }

  /** The events of an alert are read and selected; the alert goes with them if all fit. */
  method PlanEvents(store: Store, deadline: Deadline, alertId: int, budget: nat, rows: seq<RowKey>)
    returns (r: Result<seq<Deletion>, MaintenanceRejection>)
    requires deadline.Valid() && forall i :: 0 <= i < |rows| ==> rows[i].2 in store.events
    modifies deadline
    ensures var selected := Limit(rows, budget);
            var plain := EventDeletions(selected, alertId);
            Answers(
              r, deadline.clock, old(deadline.readings), deadline.readings, 2 * |rows| + |selected|,
              RowsReadable(store.samples.Keys, store.events, rows) && true,
              if |rows| <= budget && |selected| < budget then plain + [DeleteAlert(alertId)] else plain)
  {
    hide *;
    ghost var clock, from, readable := deadline.clock, deadline.readings, RowsReadable(store.samples.Keys, store.events, rows);
    var selected := Limit(rows, budget);
    var whole := |rows| <= budget && |selected| < budget;
    ghost var plain := EventDeletions(selected, alertId);
    ghost var value := if whole then plain + [DeleteAlert(alertId)] else plain;
    var events := ReadEvents(store, deadline, rows);
    ghost var middle := deadline.readings;
    if events.Failure? {
      AnswersEarly(events, clock, from, middle, 2 * |rows|, readable, rows, |selected|, true, value);
      return Failure(events.error);
    }
    AnswersIs(events, clock, from, middle, 2 * |rows|, readable, rows);
    var step := SelectEvents(deadline, selected, alertId);
    AnswersWith(step, clock, middle, deadline.readings, |selected|, true, plain, value);
    AnswersIs(step, clock, middle, deadline.readings, |selected|, true, plain);
    r := if step.Success? then Success(if whole then step.value + [DeleteAlert(alertId)] else step.value) else Failure(step.error);
    AnswersThen(rows, clock, from, middle, 2 * |rows|, readable, r, deadline.readings, |selected|, true, value);
  }

  lemma AnswersIs<T>(
    r: Result<T, MaintenanceRejection>, clock: Clock, from: nat, readings: nat, looks: nat, readable: bool, value: T)
    requires Answers(r, clock, from, readings, looks, readable, value)
    ensures r.Success? ==> r.value == value && readable && readings == from + looks
  {
  }

  /** As much of one alert as the budget allows: its events, then the alert itself. */
  method PlanAlertRows(store: Store, deadline: Deadline, alertId: int, budget: nat) returns (r: Result<seq<Deletion>, MaintenanceRejection>)
    requires deadline.Valid()
    modifies deadline
    ensures Answers(
              r, deadline.clock, old(deadline.readings), deadline.readings, AlertLooks(store.Tables(), alertId, budget),
              RowsReadable(store.samples.Keys, store.events, EventRows(store.Tables(), alertId, budget)),
              AlertDeletions(store.Tables(), alertId, budget))
  {
    hide *;
    store.TablesHold();
    var db := store.Tables();
    ghost var clock, from, looks := deadline.clock, deadline.readings, AlertLooks(db, alertId, budget);
    ghost var value := AlertDeletions(db, alertId, budget);
    AlertParts(db, alertId, budget);
    var rows := EventRows(db, alertId, budget);
    ghost var readable := RowsReadable(store.samples.Keys, store.events, rows);
    var late := deadline.Passed();
    if late {
      LateAnswer(clock, from, deadline.readings, looks, readable, value);
      return Failure(TimedOut);
    }
    late := deadline.Passed();
    if late {
      r := Failure(TimedOut);
      LateAnswer(clock, from + 1, deadline.readings, looks - 1, readable, value);
    } else {
      r := PlanEvents(store, deadline, alertId, budget, rows);
      AnswersAfterLook(r, clock, from + 1, deadline.readings, looks - 2, readable, value);
    }
    AnswersAfterLook(r, clock, from, deadline.readings, looks - 1, readable, value);
  }

  /** What one candidate adds to a plan, and to the looks at the clock, and whether what it reads is readable. */
  function PlanStep(db: Db, k: RowKey, budget: nat): (step: (seq<Deletion>, nat, bool))
    requires budget > 0
    ensures |step.0| <= budget
  {
    if k.1 == SAMPLE_TYPE then ([DeleteSample(k.2)], 0, true)
    else
      (AlertDeletions(db, k.2, budget), AlertLooks(db, k.2, budget),
       RowsReadable(db.samples.Keys, db.events, EventRows(db, k.2, budget)))
  }

  lemma PlanSteps(db: Db, candidates: seq<RowKey>, budget: nat)
    requires candidates != [] && budget > 0
    ensures var (step, looks, readable) := PlanStep(db, candidates[0], budget);
            && PlanFrom(db, candidates, budget) == step + PlanFrom(db, candidates[1..], budget - |step|)
            && PlanLooks(db, candidates, budget) == 1 + (looks + PlanLooks(db, candidates[1..], budget - |step|))
            && (EventsReadable(db, candidates, budget) <==> readable && EventsReadable(db, candidates[1..], budget - |step|))
  {
    hide AlertDeletions, AlertLooks, RowsReadable, EventRows;
  }

  lemma PlanEnds(db: Db, candidates: seq<RowKey>, budget: nat)
    requires candidates == [] || budget == 0
    ensures PlanFrom(db, candidates, budget) == [] && EventsReadable(db, candidates, budget)
    ensures PlanLooks(db, candidates, budget) == if candidates == [] then 0 else 1
  {
  }

  /** One candidate: a sample alone, or as much of an alert as the budget allows. */
  method PlanCandidate(store: Store, deadline: Deadline, k: RowKey, budget: nat) returns (r: Result<seq<Deletion>, MaintenanceRejection>)
    requires deadline.Valid() && budget > 0
    modifies deadline
    ensures var (step, looks, readable) := PlanStep(store.Tables(), k, budget);
            Answers(r, deadline.clock, old(deadline.readings), deadline.readings, looks, readable, step)
  {
    hide Answers, AlertDeletions, AlertLooks, RowsReadable, EventRows;
    if k.1 == SAMPLE_TYPE {
      AnswersAtOnce(deadline.clock, deadline.readings, [DeleteSample(k.2)]);
      return Success([DeleteSample(k.2)]);
    }
    r := PlanAlertRows(store, deadline, k.2, budget);
  }

  /**
   * With `actions` planned without a late look or an unreadable row, an answer to what remains
   * completes an answer to the whole.
   */
  ghost predicate OnPlan(
    db: Db, candidates: seq<RowKey>, rest: seq<RowKey>, actions: seq<Deletion>, clock: Clock, from: nat, readings: nat)
  {
    && |actions| <= RETENTION_ROW_BUDGET && from <= readings && InTime(clock, from, readings)
    && var remaining := RETENTION_ROW_BUDGET - |actions|;
       && actions + PlanFrom(db, rest, remaining) == PlanFrom(db, candidates, RETENTION_ROW_BUDGET)
       && readings + PlanLooks(db, rest, remaining) == from + PlanLooks(db, candidates, RETENTION_ROW_BUDGET)
       && (EventsReadable(db, rest, remaining) <==> EventsReadable(db, candidates, RETENTION_ROW_BUDGET))
  }

  lemma PlanBegins(db: Db, candidates: seq<RowKey>, clock: Clock, from: nat)
    ensures OnPlan(db, candidates, candidates, [], clock, from, from)
  {
    hide PlanFrom, PlanLooks, EventsReadable;
  }

  lemma LateOnPlan(
    db: Db, candidates: seq<RowKey>, rest: seq<RowKey>, actions: seq<Deletion>, clock: Clock, from: nat, readings: nat, after: nat)
    requires OnPlan(db, candidates, rest, actions, clock, from, readings) && rest != [] && LateAt(clock, readings)
    ensures Answers<seq<Deletion>>(
              Failure(TimedOut), clock, from, after, PlanLooks(db, candidates, RETENTION_ROW_BUDGET),
              EventsReadable(db, candidates, RETENTION_ROW_BUDGET), PlanFrom(db, candidates, RETENTION_ROW_BUDGET))
  {
    assert PlanLooks(db, rest, RETENTION_ROW_BUDGET - |actions|) >= 1;
  }

  lemma PlanIsComplete(
    db: Db, candidates: seq<RowKey>, rest: seq<RowKey>, actions: seq<Deletion>, clock: Clock, from: nat, readings: nat)
    requires OnPlan(db, candidates, rest, actions, clock, from, readings)
    requires rest == [] || (|actions| == RETENTION_ROW_BUDGET && !LateAt(clock, readings))
    ensures Answers(
              Success(actions), clock, from, readings + (if rest == [] then 0 else 1), PlanLooks(db, candidates, RETENTION_ROW_BUDGET),
              EventsReadable(db, candidates, RETENTION_ROW_BUDGET), PlanFrom(db, candidates, RETENTION_ROW_BUDGET))
  {
    hide PlanFrom, PlanLooks, EventsReadable;
    PlanEnds(db, rest, RETENTION_ROW_BUDGET - |actions|);
    assert actions + [] == actions;
  }

  lemma PlanGoesOn(
    db: Db, candidates: seq<RowKey>, rest: seq<RowKey>, actions: seq<Deletion>, clock: Clock, from: nat, readings: nat,
    r: Result<seq<Deletion>, MaintenanceRejection>, after: nat)
    requires OnPlan(db, candidates, rest, actions, clock, from, readings) && rest != [] && |actions| < RETENTION_ROW_BUDGET
    requires !LateAt(clock, readings)
    requires var (step, looks, readable) := PlanStep(db, rest[0], RETENTION_ROW_BUDGET - |actions|);
             Answers(r, clock, readings + 1, after, looks, readable, step)
    ensures if r.Success? then OnPlan(db, candidates, rest[1..], actions + r.value, clock, from, after)
            else
              Answers<seq<Deletion>>(
                Failure(r.error), clock, from, after, PlanLooks(db, candidates, RETENTION_ROW_BUDGET),
                EventsReadable(db, candidates, RETENTION_ROW_BUDGET), PlanFrom(db, candidates, RETENTION_ROW_BUDGET))
  {
    hide PlanFrom, PlanLooks, EventsReadable, PlanStep;
    PlanSteps(db, rest, RETENTION_ROW_BUDGET - |actions|);
    var (step, looks, readable) := PlanStep(db, rest[0], RETENTION_ROW_BUDGET - |actions|);
    var others := PlanLooks(db, rest[1..], RETENTION_ROW_BUDGET - |actions| - |step|);
    InTimeThroughout(clock, from, readings, readings + 1 + looks + others);
    InTimeThroughout(clock, readings, readings + 1, readings + 1 + looks + others);
    InTimeThroughout(clock, readings + 1, readings + 1 + looks, readings + 1 + looks + others);
    InTimeThroughout(clock, from, readings, readings + 1 + looks);
    InTimeThroughout(clock, readings, readings + 1, readings + 1 + looks);
    assert (actions + step) + PlanFrom(db, rest[1..], RETENTION_ROW_BUDGET - |actions| - |step|)
        == actions + (step + PlanFrom(db, rest[1..], RETENTION_ROW_BUDGET - |actions| - |step|));
  }

  /** Plans the candidates one after the other, until they or the budget are used up. */
  method PlanCandidates(store: Store, deadline: Deadline, candidates: seq<RowKey>) returns (r: Result<seq<Deletion>, MaintenanceRejection>)
    requires deadline.Valid()
    modifies deadline
    ensures Answers(
              r, deadline.clock, old(deadline.readings), deadline.readings, PlanLooks(store.Tables(), candidates, RETENTION_ROW_BUDGET),
              EventsReadable(store.Tables(), candidates, RETENTION_ROW_BUDGET), PlanFrom(store.Tables(), candidates, RETENTION_ROW_BUDGET))
  {
    hide *;
    ghost var db, clock, from := store.Tables(), deadline.clock, deadline.readings;
    var actions: seq<Deletion> := [];
    PlanBegins(db, candidates, clock, from);
    for i := 0 to |candidates|
      invariant |actions| <= RETENTION_ROW_BUDGET && OnPlan(db, candidates, candidates[i..], actions, clock, from, deadline.readings)
    {
      ghost var rest, n := candidates[i..], deadline.readings;
      assert rest[0] == candidates[i] && rest[1..] == candidates[i + 1..];
      var late := deadline.Passed();
      if late {
        LateOnPlan(db, candidates, rest, actions, clock, from, n, deadline.readings);
        return Failure(TimedOut);
      }
      if |actions| == RETENTION_ROW_BUDGET {
        PlanIsComplete(db, candidates, rest, actions, clock, from, n);
        return Success(actions);
      }
      var remaining := RETENTION_ROW_BUDGET - |actions|;
      var step := PlanCandidate(store, deadline, candidates[i], remaining);
      PlanGoesOn(db, candidates, rest, actions, clock, from, n, step, deadline.readings);
      if step.Failure? {
        return Failure(step.error);
      }
      ghost var (planned, looks, readable) := PlanStep(db, candidates[i], remaining);
      AnswersIs(step, clock, n + 1, deadline.readings, looks, readable, planned);
      actions := actions + step.value;
    }
    PlanIsComplete(db, candidates, candidates[|candidates|..], actions, clock, from, deadline.readings);
    return Success(actions);
  }

  /** What to delete, decided before anything is deleted. */
  method RetentionPlan(store: Store, deadline: Deadline, hash: Hash, cutoff: int) returns (r: Result<seq<Deletion>, MaintenanceRejection>)
    requires deadline.Valid()
    modifies deadline
    ensures Answers(
              r, deadline.clock, old(deadline.readings), deadline.readings,
              CandidateLooks(store.Tables(), cutoff) + PlanLooks(store.Tables(), Candidates(store.Tables(), cutoff), RETENTION_ROW_BUDGET),
              FetchedReadable(hash, store.Tables(), cutoff), Plan(store.Tables(), cutoff))
  {
    hide Answers, Candidates, CandidatesReadable, CandidateLooks, PlanFrom, PlanLooks, EventsReadable;
    ghost var db, clock, from, all := store.Tables(), deadline.clock, deadline.readings, Candidates(store.Tables(), cutoff);
    ghost var looks, more := CandidateLooks(db, cutoff), PlanLooks(db, all, RETENTION_ROW_BUDGET);
    ghost var readable, others := CandidatesReadable(hash, db, cutoff), EventsReadable(db, all, RETENTION_ROW_BUDGET);
    var candidates := CollectCandidates(store, deadline, hash, cutoff);
    ghost var middle := deadline.readings;
    AnswersIs(candidates, clock, from, middle, looks, readable, all);
    if candidates.Failure? {
      AnswersEarly(candidates, clock, from, middle, looks, readable, all, more, others, Plan(db, cutoff));
      return Failure(candidates.error);
    }
    r := PlanCandidates(store, deadline, candidates.value);
    AnswersThen(all, clock, from, middle, looks, readable, r, deadline.readings, more, others, Plan(db, cutoff));
  }

  /** Deletes a sample row; the references to it are cleared with it. */
  method DeleteSampleRow(store: Store, id: int)
    modifies store
    ensures store.Tables() == WithoutSample(old(store.Tables()), id)
  {
    store.samples := store.samples - {id};
    store.evaluation := map scope | scope in store.evaluation :: ForgetInEvaluation(store.evaluation[scope], id);
    store.alerts := map a | a in store.alerts :: ForgetInAlert(store.alerts[a], id);
    store.events := map e | e in store.events :: ForgetInEvent(store.events[e], id);
  }

  /** Deletes one row that may be deleted. */
  method DeleteRow(store: Store, action: Deletion, cutoff: int)
    requires Delete(store.Tables(), action, cutoff).Some?
    modifies store
    ensures Some(store.Tables()) == Delete(old(store.Tables()), action, cutoff)
  {
    match action {
      case DeleteSample(id) =>
        DeleteSampleRow(store, id);
      case DeleteEvent(id, _) =>
        store.events := store.events - {id};
      case DeleteAlert(id) =>
        store.alerts := store.alerts - {id};
    }
  }

  /** Deletes the planned rows one by one; after a failure the caller rolls back. */
  method ExecutePlan(store: Store, deadline: Deadline, actions: seq<Deletion>, cutoff: int)
    returns (r: Result<(nat, nat, nat), MaintenanceRejection>)
    requires deadline.Valid()
    modifies store, deadline
    ensures var from, to := old(deadline.readings), old(deadline.readings) + |actions|;
            match r
            case Success(counts) =>
              && DeleteAll(old(store.Tables()), actions, cutoff) == Some(store.Tables()) && counts == Counts(actions)
              && deadline.readings == to && InTime(deadline.clock, from, to)
            case Failure(TimedOut) => !InTime(deadline.clock, from, to)
            case Failure(e) => e == MalformedRows && DeleteAll(old(store.Tables()), actions, cutoff).None?
  {
    hide LateAt, Delete;
    var samplesDeleted, eventsDeleted, alertsDeleted := 0, 0, 0;
    for i := 0 to |actions|
      invariant DeleteAll(old(store.Tables()), actions, cutoff) == DeleteAll(store.Tables(), actions[i..], cutoff)
      invariant (samplesDeleted, eventsDeleted, alertsDeleted) == Counts(actions[..i])
      invariant deadline.readings == old(deadline.readings) + i && InTime(deadline.clock, old(deadline.readings), deadline.readings)
    {
      var late := deadline.Passed();
      if late {
        return Failure(TimedOut);
      }
      assert actions[i..][0] == actions[i] && actions[i..][1..] == actions[i + 1..];
      assert actions[..i + 1][..i] == actions[..i];
      if Delete(store.Tables(), actions[i], cutoff).None? {
        return Failure(MalformedRows);
      }
      DeleteRow(store, actions[i], cutoff);
      match actions[i] {
        case DeleteSample(_) => samplesDeleted := samplesDeleted + 1;
        case DeleteEvent(_, _) => eventsDeleted := eventsDeleted + 1;
        case DeleteAlert(_) => alertsDeleted := alertsDeleted + 1;
      }
    }
    assert actions[..|actions|] == actions && actions[|actions|..] == [];
    return Success((samplesDeleted, eventsDeleted, alertsDeleted));
  }

  /** The cleanup gets as far as its commit: the request is valid, all it reads is readable, and no look is late. */
  ghost predicate Commits(hash: Hash, db: Db, now: int, days: int, clock: Clock) {
    && ValidRequest(now, days)
    && FetchedReadable(hash, db, Cutoff(now, days))
    && InTime(clock, 1, 1 + LooksBeforeCommit(db, Cutoff(now, days)))
  }

  /** The last look at the clock, right after the commit, is late. */
  predicate LateAfterCommit(db: Db, now: int, days: int, clock: Clock) {
    LateAt(clock, 1 + LooksBeforeCommit(db, Cutoff(now, days)))
  }

  lemma LooksAddUp(db: Db, cutoff: int)
    ensures LooksBeforeCommit(db, cutoff) ==
              CandidateLooks(db, cutoff) + PlanLooks(db, Candidates(db, cutoff), RETENTION_ROW_BUDGET) + |Plan(db, cutoff)| + 1
  {
  }

  /** From the beginning of the transaction to its commit, or to its rollback. */
  method RunTransaction(store: Store, deadline: Deadline, hash: Hash, cutoff: int)
    returns (r: Result<(nat, nat, nat), MaintenanceRejection>)
    requires deadline.Valid()
    modifies store, deadline
    ensures var before := old(store.Tables());
            var from, to := old(deadline.readings), old(deadline.readings) + LooksBeforeCommit(before, cutoff);
            && Cleanup(before, cutoff).Some?
            && match r
               case Success(counts) =>
                 && store.Tables() == Cleanup(before, cutoff).value && counts == Counts(Plan(before, cutoff))
                 && FetchedReadable(hash, before, cutoff) && deadline.readings == to && InTime(deadline.clock, from, to)
               case Failure(TimedOut) => store.Tables() == before && !InTime(deadline.clock, from, to)
               case Failure(e) => e == MalformedRows && store.Tables() == before && !FetchedReadable(hash, before, cutoff)
  {
    hide LateAt, FetchedReadable, Plan, DeleteAll, Counts, LooksBeforeCommit, CandidateLooks, PlanLooks, Candidates;
    ghost var db, clock, from := store.Tables(), deadline.clock, deadline.readings;
    CleanupCompletes(db, cutoff);
    LooksAddUp(db, cutoff);
    ghost var to := from + LooksBeforeCommit(db, cutoff);
    ghost var planned := to - 1 - |Plan(db, cutoff)|;
    InTimeThroughout(clock, from, planned, to);
    InTimeThroughout(clock, planned, to - 1, to);
    var begun := store.Tables();
    var plan :- RetentionPlan(store, deadline, hash, cutoff);
    var executed := ExecutePlan(store, deadline, plan, cutoff);
    if executed.Failure? {
      store.Rollback(begun);
      return Failure(executed.error);
    }
    var late := deadline.Passed();
    if late {
      store.Rollback(begun);
      return Failure(TimedOut);
    }
    return Success(executed.value);
  }

  /** The rows that a cleanup reports are those that are gone. */
  predicate ReportsRowsGone(result: CleanupResult, before: Db, after: Db) {
    && result.samples == |before.samples| - |after.samples|
    && result.events == |before.events| - |after.events|
    && result.alerts == |before.alerts| - |after.alerts|
  }

  lemma CommittedEffects(db: Db, cutoff: int)
    ensures Cleanup(db, cutoff).Some?
    ensures var after := Cleanup(db, cutoff).value;
            && KeepsRecent(db, after, cutoff) && AddsNothing(db, after)
            && (exists mark :: DividedAt(db, after, cutoff, mark))
            && Counts(Plan(db, cutoff)) ==
                 (|db.samples| - |after.samples|, |db.events| - |after.events|, |db.alerts| - |after.alerts|)
            && (|Plan(db, cutoff)| < 500 ==> NothingOld(after, cutoff))
            && (|Plan(db, cutoff)| == 0 <==> NothingOld(db, cutoff))
  {
    hide Plan, Counts, DeleteAll, KeepsRecent, AddsNothing, DividedAt, NothingOld;
    CleanupEffects(db, cutoff);
    CountsAreRowsGone(db, Plan(db, cutoff), cutoff);
    NothingOldNothingPlanned(db, cutoff);
  }

  /** Less than a second has passed at every reading up to this one. */
  ghost predicate Prompt(clock: Clock, last: nat) {
    forall n :: 1 <= n <= last ==> clock(n) < clock(0) + 1.0
  }

  lemma PromptIsInTime(clock: Clock, looks: nat)
    ensures Prompt(clock, 1 + looks) <==> InTime(clock, 1, 1 + looks) && !LateAt(clock, 1 + looks)
  {
    forall n
      ensures LateAt(clock, n) <==> clock(n) >= clock(0) + 1.0
    {
    }
    if InTime(clock, 1, 1 + looks) && !LateAt(clock, 1 + looks) {
      forall n | 1 <= n <= 1 + looks
        ensures clock(n) < clock(0) + 1.0
      {
        assert !LateAt(clock, n);
      }
    }
  }

  /**
   * One cleanup.  The rows are gone exactly if it gets to its commit.  It reports success exactly
   * if the last look at the clock, after the commit, is not late either; so a timeout is reported
   * although the rows are gone exactly if only that look is late.  Whatever happens, what is within
   * the retention stays; what goes is the oldest, and all of it if it is fewer than 500 rows.
   */
  method CleanupRetention(store: Store, hash: Hash, now: int, days: int, clock: Clock)
    returns (r: Result<CleanupResult, MaintenanceRejection>)
    modifies store
    ensures var before, cutoff := old(store.Tables()), Cutoff(now, days);
            var commits := Commits(hash, before, now, days, clock);
            && Cleanup(before, cutoff).Some?
            && store.Tables() == (if commits then Cleanup(before, cutoff).value else before)
            && (r.Success? <==> commits && !LateAfterCommit(before, now, days, clock))
            && match r
               case Success(result) => (result.samples, result.events, result.alerts) == Counts(Plan(before, cutoff))
               case Failure(InvalidMaintenance) => !ValidRequest(now, days)
               case Failure(TimedOut) => ValidRequest(now, days) && !InTime(clock, 1, 2 + LooksBeforeCommit(before, cutoff))
               case Failure(MalformedRows) => ValidRequest(now, days) && !FetchedReadable(hash, before, cutoff)
    ensures var before, after, time := old(store.Tables()), store.Tables(), now - days * 86_400_000_000;
            && KeepsRecent(before, after, time) && AddsNothing(before, after)
            && (after != before ==> exists mark :: DividedAt(before, after, time, mark))
            && (r.Success? ==>
                  && ReportsRowsGone(r.value, before, after)
                  && r.value.samples + r.value.events + r.value.alerts <= 500
                  && (r.value.noWork <==> NothingOld(before, time))
                  && (r.value.samples + r.value.events + r.value.alerts < 500 ==> NothingOld(after, time)))
    ensures r == Failure(InvalidMaintenance) <==> !(IsTimestamp(now) && 1 <= days <= 365)
    ensures r.Success? <==>
              && IsTimestamp(now) && 1 <= days <= 365
              && FetchedReadable(hash, old(store.Tables()), now - days * 86_400_000_000)
              && Prompt(clock, 1 + LooksBeforeCommit(old(store.Tables()), now - days * 86_400_000_000))
  {
    hide LateAt, Prompt, FetchedReadable, LooksBeforeCommit, Plan, Expired, Cleanup, Counts, KeepsRecent, AddsNothing, DividedAt, NothingOld;
    var cutoff := Cutoff(now, days);
    ghost var db := store.Tables();
    CommittedEffects(db, cutoff);
    EverythingIsKept(db, cutoff);
    PromptIsInTime(clock, LooksBeforeCommit(db, cutoff));
    if !ValidRequest(now, days) {
      return Failure(InvalidMaintenance);
    }
    PlanIsHeadOfExpired(db, cutoff);
    CountsAddUp(Plan(db, cutoff));
    var deadline := new Deadline(clock);
    var counts :- RunTransaction(store, deadline, hash, cutoff);
    var late := deadline.Passed();
    if late {
      return Failure(TimedOut);
    }
    return Success(CleanupResult(counts.0 + counts.1 + counts.2 == 0, counts.0, counts.1, counts.2));
  }

  // ---------- A timeout after the commit ----------

  /** A clock whose only late reading is the one after the commit. */
  function LateOnlyAfter(looks: nat): Clock {
    (n: nat) => if n <= looks then 0.0 else MAINTENANCE_SECONDS
  }

  lemma WorkChangesSomething(db: Db, cutoff: int)
    requires Expired(db, cutoff) != []
    ensures Cleanup(db, cutoff).Some? && Cleanup(db, cutoff).value != db
  {
    hide Expired, Cleanup, DeleteAll;
    CleanupsWorkOff(db, cutoff, 0);
    CleanupsWorkOff(db, cutoff, 1);
    OneCleanup(db, cutoff);
    assert |Expired(db, cutoff)[DeletedAfter(db, cutoff, 1)..]| < |Expired(db, cutoff)|;
  }

  /** Whenever there is something to delete, some clock makes the cleanup delete it and report a timeout. */
  method TimeoutAfterCommit(store: Store, hash: Hash, now: int, days: int) returns (r: Result<CleanupResult, MaintenanceRejection>)
    requires ValidRequest(now, days) && FetchedReadable(hash, store.Tables(), Cutoff(now, days))
    requires Expired(store.Tables(), Cutoff(now, days)) != []
    modifies store
    ensures r == Failure(TimedOut)
    ensures Some(store.Tables()) == Cleanup(old(store.Tables()), Cutoff(now, days)) && store.Tables() != old(store.Tables())
  {
    hide FetchedReadable, LooksBeforeCommit, Expired, Cleanup;
    WorkChangesSomething(store.Tables(), Cutoff(now, days));
    r := CleanupRetention(store, hash, now, days, LateOnlyAfter(LooksBeforeCommit(store.Tables(), Cutoff(now, days))));
  }
}
