/**
 * Retention (health_history/maintenance.py): which rows one cleanup deletes, and in which order.
 * `Expired` is the unbounded list of everything past the cutoff; a cleanup works on bounded
 * fetches only.
 */
module Retention {
  import opened Wrappers
  import opened HealthModels
  import opened RowOrder
  import opened HistoryTables

  const RETENTION_ROW_BUDGET: nat := 500

  datatype Deletion =
    | DeleteSample(id: int)
    | DeleteEvent(id: int, alertId: int)
    | DeleteAlert(id: int)

  // ---------- What has expired ----------

  predicate SampleExpired(row: SampleRow, cutoff: int) {
    row.observedAt < cutoff
  }

  predicate AlertExpired(row: AlertRow, cutoff: int) {
    row.state.lifecycle == Archived && row.state.recoveredAt.Some? && row.state.recoveredAt.value < cutoff
  }

  const SAMPLE_TYPE := 0
  const ALERT_TYPE := 1

  function SampleKeys(db: Db, cutoff: int): (keys: set<RowKey>)
    ensures forall k :: k in keys ==> k.1 == SAMPLE_TYPE && k.2 in db.samples
  {
    set id | id in db.samples && SampleExpired(db.samples[id], cutoff) :: (db.samples[id].observedAt, SAMPLE_TYPE, id)
  }

  function AlertKeys(db: Db, cutoff: int): (keys: set<RowKey>)
    ensures forall k :: k in keys ==> k.1 == ALERT_TYPE && k.2 in db.alerts
  {
    set id | id in db.alerts && AlertExpired(db.alerts[id], cutoff) ::
      (db.alerts[id].state.recoveredAt.value, ALERT_TYPE, id)
  }

  function EventKeys(db: Db, alertId: int): (keys: set<RowKey>)
    ensures forall k :: k in keys ==> k.2 in db.events
  {
    set id | id in db.events && db.events[id].alertId == alertId :: (db.events[id].at, 0, id)
  }

  function EventDeletions(rows: seq<RowKey>, alertId: int): (actions: seq<Deletion>)
    ensures |actions| == |rows|
    ensures forall i :: 0 <= i < |rows| ==> actions[i] == DeleteEvent(rows[i].2, alertId)
  {
    seq(|rows|, i requires 0 <= i < |rows| => DeleteEvent(rows[i].2, alertId))
  }

  /** All that goes with one candidate: a sample alone, or an alert after its events. */
  function Expand(db: Db, k: RowKey): (actions: seq<Deletion>)
    ensures actions != []
  {
    if k.1 == SAMPLE_TYPE then [DeleteSample(k.2)]
    else EventDeletions(Sorted(EventKeys(db, k.2)), k.2) + [DeleteAlert(k.2)]
  }

  function ExpandAll(db: Db, candidates: seq<RowKey>): seq<Deletion> {
    if candidates == [] then [] else Expand(db, candidates[0]) + ExpandAll(db, candidates[1..])
  }

  /** Everything past the cutoff, in the order of deletion. */
  function Expired(db: Db, cutoff: int): seq<Deletion> {
    ExpandAll(db, Sorted(SampleKeys(db, cutoff) + AlertKeys(db, cutoff)))
  }

  // ---------- The bounded plan ----------

  /** The rows of two fetches, sorted together. */
  function Merged(a: seq<RowKey>, b: seq<RowKey>): seq<RowKey> {
    Sorted((set k | k in a) + (set k | k in b))
  }

  /** The candidates from two bounded fetches. */
  function Candidates(db: Db, cutoff: int): seq<RowKey> {
    Merged(Fetch(SampleKeys(db, cutoff), RETENTION_ROW_BUDGET), Fetch(AlertKeys(db, cutoff), RETENTION_ROW_BUDGET))
  }

  /** As much of an alert as the budget allows: its events, then the alert itself. */
  function AlertDeletions(db: Db, alertId: int, budget: nat): (actions: seq<Deletion>)
    ensures |actions| <= budget
  {
    var events := Fetch(EventKeys(db, alertId), budget + 1);
    var selected := EventDeletions(Limit(events, budget), alertId);
    if |events| <= budget && |selected| < budget then selected + [DeleteAlert(alertId)] else selected
  }

  function PlanFrom(db: Db, candidates: seq<RowKey>, budget: nat): seq<Deletion> {
    if candidates == [] || budget == 0 then []
    else
      var k, rest := candidates[0], candidates[1..];
      if k.1 == SAMPLE_TYPE then [DeleteSample(k.2)] + PlanFrom(db, rest, budget - 1)
      else
        var actions := AlertDeletions(db, k.2, budget);
        actions + PlanFrom(db, rest, budget - |actions|)
  }

  /** What one cleanup deletes. */
  function Plan(db: Db, cutoff: int): seq<Deletion> {
    PlanFrom(db, Candidates(db, cutoff), RETENTION_ROW_BUDGET)
  }

  // ---------- The bounded plan is the head of the unbounded list ----------

  lemma LeastOfSubset(all: set<RowKey>, some: set<RowKey>)
    requires some <= all && all != {} && Least(all) in some
    ensures Least(some) == Least(all)
  {
    assert IsLeast(Least(all), all) && IsLeast(Least(some), some);
  }

  lemma LimitOfFirst<T>(x: T, rest: seq<T>, n: nat)
    requires n > 0
    ensures Limit([x] + rest, n) == [x] + Limit(rest, n - 1)
  {
  }

  /** The fetch of a nonempty selection is its least row and a fetch of the others. */
  lemma FetchStep(keys: set<RowKey>, n: nat)
    requires keys != {} && n > 0
    ensures Least(keys) in keys
    ensures Sorted(keys) == [Least(keys)] + Sorted(keys - {Least(keys)})
    ensures Limit(Sorted(keys), n) == [Least(keys)] + Limit(Sorted(keys - {Least(keys)}), n - 1)
  {
    assert Least(keys) in keys && Sorted(keys) == [Least(keys)] + Sorted(keys - {Least(keys)});
    hide *;
    LimitOfFirst(Least(keys), Sorted(keys - {Least(keys)}), n);
  }

  lemma LimitOfNone<T>(x: seq<T>)
    ensures Limit(x, 0) == []
  {
  }

  lemma LimitIsWithin<T>(rows: seq<T>, n: nat, row: T)
    ensures row in Limit(rows, n) ==> row in rows
  {
  }

  lemma InLonger<T>(x: T, rows: seq<T>, k: T)
    ensures k in [x] + rows <==> k == x || k in rows
  {
    assert ([x] + rows)[0] == x && ([x] + rows)[1..] == rows;
  }

  /** Among the first `n` of all rows, those of one kind are among the first `n` of their kind. */
  lemma {:induction false} FetchedEarly(all: set<RowKey>, some: set<RowKey>, n: nat, k: RowKey)
    requires some <= all && k in some && k in Limit(Sorted(all), n)
    ensures k in Limit(Sorted(some), n)
  {
    hide *;
    LimitOfNone(Sorted(all));
    FetchStep(all, n);
    var first := Least(all);
    InLonger(first, Limit(Sorted(all - {first}), n - 1), k);
    if k != first {
      FetchedEarly(all - {first}, some - {first}, n - 1, k);
    }
    StillFetched(all, some, n, k);
  }

  lemma StillFetched(all: set<RowKey>, some: set<RowKey>, n: nat, k: RowKey)
    requires some <= all && all != {} && n > 0 && k in some
    requires k == Least(all) || k in Limit(Sorted(some - {Least(all)}), n - 1)
    ensures k in Limit(Sorted(some), n)
  {
    hide *;
    var first := Least(all);
    if first in some {
      LeastOfSubset(all, some);
      FetchStep(some, n);
      InLonger(first, Limit(Sorted(some - {first}), n - 1), k);
    } else {
      assert some - {first} == some;
      LimitGrows(Sorted(some), n - 1, n, k);
    }
  }

  lemma LimitGrows<T>(rows: seq<T>, m: nat, n: nat, row: T)
    requires m <= n && row in Limit(rows, m)
    ensures row in Limit(rows, n)
  {
  }

  lemma WithinRest(all: set<RowKey>, some: set<RowKey>, n: nat)
    requires all != {} && n > 0
    requires forall k :: k in Limit(Sorted(all), n) ==> k in some
    ensures forall k :: k in Limit(Sorted(all - {Least(all)}), n - 1) ==> k in some - {Least(all)}
  {
    hide *;
    var first := Least(all);
    var rest := Sorted(all - {first});
    FetchStep(all, n);
    forall k | k in Limit(rest, n - 1)
      ensures k in some - {first}
    {
      LimitIsWithin(rest, n - 1, k);
      assert k in all - {first};
      InLonger(first, Limit(rest, n - 1), k);
    }
  }

  /** If the first `n` of all rows are among some of them, they are also the first `n` of those. */
  lemma {:induction false} SameHead(all: set<RowKey>, some: set<RowKey>, n: nat)
    requires some <= all
    requires forall k :: k in Limit(Sorted(all), n) ==> k in some
    ensures Limit(Sorted(some), n) == Limit(Sorted(all), n)
  {
    hide *;
    if n == 0 {
      LimitOfNone(Sorted(some));
      LimitOfNone(Sorted(all));
    } else if all == {} {
      assert some == {};
    } else {
      var first := Least(all);
      FetchStep(all, n);
      InLonger(first, Limit(Sorted(all - {first}), n - 1), first);
      LeastOfSubset(all, some);
      FetchStep(some, n);
      WithinRest(all, some, n);
      SameHead(all - {first}, some - {first}, n - 1);
    }
  }

  lemma LimitOfSum<T>(x: seq<T>, y: seq<T>, n: nat)
    ensures Limit(x + y, n) == if |x| >= n then Limit(x, n) else x + Limit(y, n - |x|)
    ensures |x| >= n ==> |Limit(x, n)| == n
    ensures |x| <= n ==> Limit(x, n) == x
  {
  }

  lemma LimitTwice<T>(x: seq<T>, m: nat, n: nat)
    ensures Limit(Limit(x, m), n) == Limit(x, if m <= n then m else n)
  {
  }

  lemma ExpandFirst(db: Db, k: RowKey, rest: seq<RowKey>)
    ensures ExpandAll(db, [k] + rest) == Expand(db, k) + ExpandAll(db, rest)
  {
    assert ([k] + rest)[1..] == rest;
  }

  /** Every candidate takes part of the budget, so a budget of `n` reaches the first `n` at most. */
  lemma {:induction false} OnlyHeadMatters(db: Db, candidates: seq<RowKey>, n: nat)
    ensures Limit(ExpandAll(db, candidates), n) == Limit(ExpandAll(db, Limit(candidates, n)), n)
    decreases |candidates|
  {
    hide Expand, ExpandAll, Limit;
    if n == 0 {
      LimitOfNone(ExpandAll(db, candidates));
      LimitOfNone(ExpandAll(db, Limit(candidates, n)));
    } else if candidates == [] {
      LimitOfSum(candidates, candidates, n);
    } else {
      var k, rest := candidates[0], candidates[1..];
      var e, head := Expand(db, k), Limit(rest, n - 1);
      assert candidates == [k] + rest;
      LimitOfFirst(k, rest, n);
      ExpandFirst(db, k, rest);
      ExpandFirst(db, k, head);
      LimitOfSum(e, ExpandAll(db, rest), n);
      LimitOfSum(e, ExpandAll(db, head), n);
      if |e| < n {
        LimitIsShorter(rest, n - 1);
        OnlyHeadMatters(db, rest, n - |e|);
        OnlyHeadMatters(db, head, n - |e|);
        LimitTwice(rest, n - 1, n - |e|);
      }
    }
  }

  lemma LimitIsShorter<T>(x: seq<T>, n: nat)
    ensures |Limit(x, n)| <= |x|
  {
  }

  lemma EventsOfBudget(rows: seq<RowKey>, alertId: int, budget: nat)
    ensures EventDeletions(Limit(Limit(rows, budget + 1), budget), alertId) == Limit(EventDeletions(rows, alertId), budget)
    ensures |Limit(rows, budget + 1)| <= budget <==> |rows| <= budget
  {
  }

  lemma AlertDeletionsAreHead(db: Db, k: RowKey, budget: nat)
    requires k.1 != SAMPLE_TYPE
    ensures AlertDeletions(db, k.2, budget) == Limit(Expand(db, k), budget)
  {
    var rows := Sorted(EventKeys(db, k.2));
    hide Sorted, EventKeys, Before;
    EventsOfBudget(rows, k.2, budget);
    LimitOfSum(EventDeletions(rows, k.2), [DeleteAlert(k.2)], budget);
  }

  lemma {:induction false} PlanIsHead(db: Db, candidates: seq<RowKey>, budget: nat)
    ensures PlanFrom(db, candidates, budget) == Limit(ExpandAll(db, candidates), budget)
    decreases |candidates|
  {
    hide AlertDeletions, Expand;
    if candidates != [] && budget > 0 {
      var k, rest := candidates[0], candidates[1..];
      OneCandidate(db, k, budget);
      LimitOfSum(Expand(db, k), ExpandAll(db, rest), budget);
      hide Limit;
      var used := |Limit(Expand(db, k), budget)|;
      PlanIsHead(db, rest, budget - used);
      LimitOfNone(ExpandAll(db, rest));
      assert PlanFrom(db, candidates, budget) == Limit(Expand(db, k), budget) + PlanFrom(db, rest, budget - used);
    }
  }

  lemma OneCandidate(db: Db, k: RowKey, budget: nat)
    requires budget > 0
    ensures k.1 == SAMPLE_TYPE ==> Limit(Expand(db, k), budget) == [DeleteSample(k.2)]
    ensures k.1 != SAMPLE_TYPE ==> Limit(Expand(db, k), budget) == AlertDeletions(db, k.2, budget)
    ensures |Limit(Expand(db, k), budget)| <= budget
  {
    if k.1 != SAMPLE_TYPE {
      AlertDeletionsAreHead(db, k, budget);
    }
  }

  /** The first `n` of two selections are found by fetching `n` of each. */
  lemma HeadOfTwo(a: set<RowKey>, b: set<RowKey>, n: nat)
    ensures Limit(Sorted((set k | k in Limit(Sorted(a), n)) + (set k | k in Limit(Sorted(b), n))), n)
         == Limit(Sorted(a + b), n)
  {
    hide *;
    var all := a + b;
    var some := (set k | k in Limit(Sorted(a), n)) + (set k | k in Limit(Sorted(b), n));
    forall k | k in Limit(Sorted(all), n)
      ensures k in some
    {
      LimitIsWithin(Sorted(all), n, k);
      if k in a {
        FetchedEarly(all, a, n, k);
      } else {
        FetchedEarly(all, b, n, k);
      }
    }
    forall k | k in some
      ensures k in all
    {
      LimitIsWithin(Sorted(a), n, k);
      LimitIsWithin(Sorted(b), n, k);
    }
    SameHead(all, some, n);
  }

  lemma CandidatesAreHead(db: Db, cutoff: int)
    ensures Limit(Candidates(db, cutoff), RETENTION_ROW_BUDGET)
         == Limit(Sorted(SampleKeys(db, cutoff) + AlertKeys(db, cutoff)), RETENTION_ROW_BUDGET)
  {
    HeadOfTwo(SampleKeys(db, cutoff), AlertKeys(db, cutoff), RETENTION_ROW_BUDGET);
    hide Sorted, Limit, SampleKeys, AlertKeys;
  }

  /** The plan made from bounded fetches is the head of the full list, as long as the budget. */
  lemma PlanIsHeadOfExpired(db: Db, cutoff: int)
    ensures Plan(db, cutoff) == Limit(Expired(db, cutoff), RETENTION_ROW_BUDGET)
  {
    hide Sorted, Limit, PlanFrom, ExpandAll, Candidates;
    CandidatesAreHead(db, cutoff);
    PlanIsHead(db, Candidates(db, cutoff), RETENTION_ROW_BUDGET);
    OnlyHeadMatters(db, Sorted(SampleKeys(db, cutoff) + AlertKeys(db, cutoff)), RETENTION_ROW_BUDGET);
    OnlyHeadMatters(db, Candidates(db, cutoff), RETENTION_ROW_BUDGET);
  }
}
