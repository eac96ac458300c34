/**
 * The read side (health_history/queries.py): its validators are written separately from the
 * writer's and check every row again.
 */
module Queries {
  import opened Wrappers
  import opened HealthModels
  import opened Projection
  import opened Lifecycle
  import opened HistoryTables

  predicate IsRowId(id: int) {
    1 <= id <= MAX_OBSERVATION_SEQUENCE
  }

  predicate IsReference(id: Option<int>) {
    id.Some? ==> IsRowId(id.value)
  }

  predicate IsTime(t: Option<int>) {
    t.Some? ==> IsTimestamp(t.value)
  }

  // ---------- Samples ----------

  predicate Distinct(rows: seq<ComponentProjection>) {
    forall i, j :: 0 <= i < j < |rows| ==> rows[i].component != rows[j].component
  }

  /** The component rows of one sample, put in the fixed order. */
  ghost predicate InFixedOrder(rows: seq<ComponentProjection>, ordered: seq<ComponentProjection>) {
    && |rows| == |ordered| == COMPONENT_COUNT
    && (forall i :: 0 <= i < COMPONENT_COUNT ==> ordered[i].component == ComponentAt(i))
    && (forall c :: c in rows <==> c in ordered)
  }

  lemma EveryComponentIsThere(rows: seq<ComponentProjection>, components: map<ComponentName, ComponentProjection>)
    requires |rows| == COMPONENT_COUNT && Distinct(rows)
    requires forall i :: 0 <= i < |rows| ==> rows[i].component in components
    ensures Wled in components && HyperHdr in components && Capture in components && RaspberryPi in components
  {
    var a, b, c, d := rows[0].component, rows[1].component, rows[2].component, rows[3].component;
    assert a != b && a != c && a != d && b != c && b != d && c != d;
  }

  /**
   * The component rows of a sample come in no particular order: they are collected by name and
   * handed on in the fixed order, if each component is there exactly once.
   */
  method CollectComponents(rows: seq<ComponentProjection>) returns (r: Option<seq<ComponentProjection>>)
    ensures r.Some? <==> |rows| == COMPONENT_COUNT && Distinct(rows)
    ensures r.Some? ==> InFixedOrder(rows, r.value)
  {
    if |rows| != COMPONENT_COUNT {
      return None;
    }
    var components: map<ComponentName, ComponentProjection> := map[];
    ghost var at: map<ComponentName, nat> := map[];
    for n := 0 to |rows|
      invariant components.Keys == at.Keys
      invariant forall i :: 0 <= i < n ==> rows[i].component in at && at[rows[i].component] == i
      invariant forall c :: c in at ==> at[c] < n && rows[at[c]].component == c && components[c] == rows[at[c]]
    {
      var name := rows[n].component;
      if name in components {
        assert rows[at[name]].component == rows[n].component;
        return None;
      }
      components, at := components[name := rows[n]], at[name := n];
    }
    EveryComponentIsThere(rows, components);
    r := Some([components[Wled], components[HyperHdr], components[Capture], components[RaspberryPi]]);
    OrderedByName(rows, components, r.value);
  }

  lemma OrderedByName(
    rows: seq<ComponentProjection>, components: map<ComponentName, ComponentProjection>, ordered: seq<ComponentProjection>)
    requires |rows| == |ordered| == COMPONENT_COUNT
    requires forall i :: 0 <= i < |rows| ==> rows[i].component in components && components[rows[i].component] == rows[i]
    requires forall c :: c in components ==> components[c] in rows && components[c].component == c
    requires forall i :: 0 <= i < COMPONENT_COUNT ==> ComponentAt(i) in components && ordered[i] == components[ComponentAt(i)]
    ensures InFixedOrder(rows, ordered)
  {
    forall c | c in rows
      ensures c in ordered
    {
      var i := ComponentIndex(c.component);
      assert ordered[i] == components[ComponentAt(i)];
    }
  }

  /** There is only one way to put the rows in the fixed order, whatever order they come in. */
  lemma FixedOrderIsUnique(rows: seq<ComponentProjection>, a: seq<ComponentProjection>, b: seq<ComponentProjection>)
    requires Distinct(rows) && InFixedOrder(rows, a) && InFixedOrder(rows, b)
    ensures a == b
  {
    forall i | 0 <= i < |a|
      ensures a[i] == b[i]
    {
      assert a[i] in a && b[i] in b;
      var j :| 0 <= j < |rows| && rows[j] == a[i];
      var k :| 0 <= k < |rows| && rows[k] == b[i];
      assert rows[j].component == rows[k].component;
    }
  }

  predicate SampleRecordValid(id: int, row: SampleRow) {
    && IsRowId(id)
    && 0 <= row.sequence <= MAX_OBSERVATION_SEQUENCE
    && IsTimestamp(row.observedAt) && IsTimestamp(row.recordedAt)
    && 0 <= row.uptime <= MAX_SERVICE_UPTIME_MS
    && IsCounter(row.missedIntervals)
    && |row.components| == COMPONENT_COUNT
    && (forall i :: 0 <= i < COMPONENT_COUNT ==> row.components[i].component == ComponentAt(i))
    && row.overall == WorstStatus(row.components)
  }

  /** The reader accepts the sample; its component rows are in the fixed order here. */
  predicate SampleReadable(hash: Hash, id: int, row: SampleRow) {
    && IsRowId(id)
    && |row.digest| == PROJECTION_DIGEST_BYTES
    && ValidProjection(hash, RowProjection(row))
    && SampleRecordValid(id, row)
  }

  // ---------- Alerts ----------

  predicate LifecycleTimesFit(row: AlertRow) {
    var (acknowledged, recovered, archived) := (row.acknowledgedAt, row.state.recoveredAt, row.archivedAt);
    match row.state.lifecycle
    case Open => acknowledged.None? && recovered.None? && archived.None?
    case Acknowledged => acknowledged.Some? && recovered.None? && archived.None?
    case Recovered => recovered.Some? && archived.None?
    case Archived => recovered.Some? && archived.Some?
  }

  function OrZero(t: Option<int>): int {
    if t.Some? then t.value else 0
  }

  predicate TimesInOrder(row: AlertRow) {
    && row.openedAt <= row.state.cooldownUntil
    && (row.acknowledgedAt.Some? ==> row.openedAt <= row.acknowledgedAt.value)
    && (row.state.recoveredAt.Some? ==>
          && Max(row.openedAt, OrZero(row.acknowledgedAt)) <= row.state.recoveredAt.value
          && row.state.recoveredAt.value <= row.state.cooldownUntil)
    && (row.archivedAt.Some? ==> Max(OrZero(row.state.recoveredAt), row.state.cooldownUntil) <= row.archivedAt.value)
    && (row.firstSample.Some? && row.latestSample.Some? ==> row.firstSample.value <= row.latestSample.value)
  }

  predicate AlertRecordValid(id: int, row: AlertRow) {
    && IsRowId(id)
    && IsTimestamp(row.openedAt) && IsTimestamp(row.state.cooldownUntil)
    && IsTime(row.acknowledgedAt) && IsTime(row.state.recoveredAt) && IsTime(row.archivedAt)
    && IsReference(row.firstSample) && IsReference(row.latestSample)
    && 1 <= row.state.generation <= MAX_BOUNDED_COUNTER
    && 1 <= row.state.occurrences <= MAX_BOUNDED_COUNTER
    && row.severity == SeverityOf(row.state.kind)
    && row.state.Valid()
    && LifecycleTimesFit(row)
    && TimesInOrder(row)
  }

  predicate ReferenceExists(samples: set<int>, id: Option<int>) {
    id.Some? ==> id.value in samples
  }

  /** The reader accepts the alert in a database with these samples. */
  predicate AlertReadable(samples: set<int>, id: int, row: AlertRow) {
    AlertRecordValid(id, row) && ReferenceExists(samples, row.firstSample) && ReferenceExists(samples, row.latestSample)
  }

  // ---------- Alert events ----------

  predicate ResultFits(event: LifecycleEvent, resulting: AlertLifecycle) {
    match event
    case OpenedEvent => resulting == Open
    case AcknowledgedEvent => resulting == Acknowledged
    case RecoveredEvent => resulting == Recovered
    case ArchivedEvent => resulting == Archived
    case OccurrenceUpdatedEvent => resulting != Archived
  }

  /** The reader accepts the event when it lists the events of its alert. */
  predicate EventReadable(samples: set<int>, id: int, e: EventRow) {
    && IsRowId(id) && IsRowId(e.alertId)
    && IsTimestamp(e.at)
    && IsReference(e.supportingSample)
    && ResultFits(e.event, e.resulting)
    && ReferenceExists(samples, e.supportingSample)
  }
}
