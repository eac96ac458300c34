/**
 * What repeated cleanups do to the database: they work off the list of expired rows from its
 * head, keep everything else, and keep the database sound for ingestion.
 */
module RetentionRuns {
  import opened Wrappers
  import opened RowOrder
  import opened HistoryTables
  import opened Queries
  import opened Retention

  // ---------- Deleting one row ----------

  function Forget(reference: Option<int>, id: int): Option<int> {
    if reference == Some(id) then None else reference
  }

  function ForgetInAlert(row: AlertRow, id: int): AlertRow {
    row.(firstSample := Forget(row.firstSample, id), latestSample := Forget(row.latestSample, id))
  }

  function ForgetInEvent(e: EventRow, id: int): EventRow {
    e.(supportingSample := Forget(e.supportingSample, id))
  }

  function ForgetInEvaluation(row: EvaluationRow, id: int): EvaluationRow {
    row.(lastSample := Forget(row.lastSample, id))
  }

  /** Deleting a sample clears every reference to it. */
  function WithoutSample(db: Db, id: int): Db {
    db.(
      samples := db.samples - {id},
      evaluation := map scope | scope in db.evaluation :: ForgetInEvaluation(db.evaluation[scope], id),
      alerts := map a | a in db.alerts :: ForgetInAlert(db.alerts[a], id),
      events := map e | e in db.events :: ForgetInEvent(db.events[e], id))
  }

  /** One deletion; there is none if the row is not there to be deleted. */
  function Delete(db: Db, action: Deletion, cutoff: int): Option<Db> {
    match action
    case DeleteSample(id) =>
      if id in db.samples && SampleExpired(db.samples[id], cutoff) then Some(WithoutSample(db, id)) else None
    case DeleteEvent(id, alertId) =>
      if id in db.events && db.events[id].alertId == alertId then Some(db.(events := db.events - {id})) else None
    case DeleteAlert(id) =>
      if EventKeys(db, id) == {} && id in db.alerts && AlertExpired(db.alerts[id], cutoff) then
        Some(db.(alerts := db.alerts - {id}))
      else
        None
  }

  function DeleteAll(db: Db, actions: seq<Deletion>, cutoff: int): Option<Db>
    decreases |actions|
  {
    if actions == [] then Some(db)
    else
      match Delete(db, actions[0], cutoff)
      case None => None
      case Some(next) => DeleteAll(next, actions[1..], cutoff)
  }

  // ---------- Deleting the head of the list leaves its tail ----------

  lemma {:induction false} ExpandsAlike(a: Db, b: Db, candidates: seq<RowKey>)
    requires forall k :: k in candidates ==> Expand(a, k) == Expand(b, k)
    ensures ExpandAll(a, candidates) == ExpandAll(b, candidates)
  {
    hide Expand;
    if candidates != [] {
      assert candidates[0] in candidates;
      ExpandsAlike(a, b, candidates[1..]);
    }
  }

  function Candidate(db: Db, cutoff: int): set<RowKey> {
    SampleKeys(db, cutoff) + AlertKeys(db, cutoff)
  }

  lemma KeysMean(db: Db, cutoff: int, alertId: int, k: RowKey)
    ensures k in SampleKeys(db, cutoff) <==>
              k.1 == SAMPLE_TYPE && k.2 in db.samples && SampleExpired(db.samples[k.2], cutoff) && k.0 == db.samples[k.2].observedAt
    ensures k in AlertKeys(db, cutoff) <==>
              k.1 == ALERT_TYPE && k.2 in db.alerts && AlertExpired(db.alerts[k.2], cutoff)
              && k.0 == db.alerts[k.2].state.recoveredAt.value
    ensures k in EventKeys(db, alertId) <==>
              k.1 == 0 && k.2 in db.events && db.events[k.2].alertId == alertId && k.0 == db.events[k.2].at
  {
    var id := k.2;
    assert k == (k.0, k.1, id);
    if id in db.samples && SampleExpired(db.samples[id], cutoff) {
      assert (db.samples[id].observedAt, SAMPLE_TYPE, id) in SampleKeys(db, cutoff);
    }
    if id in db.alerts && AlertExpired(db.alerts[id], cutoff) {
      assert (db.alerts[id].state.recoveredAt.value, ALERT_TYPE, id) in AlertKeys(db, cutoff);
    }
    if id in db.events && db.events[id].alertId == alertId {
      assert (db.events[id].at, 0, id) in EventKeys(db, alertId);
    }
  }

  lemma EventKeysAlike(a: Db, b: Db, alertId: int)
    requires forall e :: (e in a.events && a.events[e].alertId == alertId) <==> (e in b.events && b.events[e].alertId == alertId)
    requires forall e :: e in a.events && e in b.events ==> a.events[e].at == b.events[e].at
    ensures EventKeys(a, alertId) == EventKeys(b, alertId)
  {
    forall k
      ensures k in EventKeys(a, alertId) <==> k in EventKeys(b, alertId)
    {
      KeysMean(a, 0, alertId, k);
      KeysMean(b, 0, alertId, k);
    }
  }

  /** Deleting an expired sample takes its candidate away and leaves the alerts' events alone. */
  lemma SampleGoes(db: Db, cutoff: int, k: RowKey)
    requires k in SampleKeys(db, cutoff)
    ensures var after := WithoutSample(db, k.2);
            Delete(db, DeleteSample(k.2), cutoff) == Some(after) && Candidate(after, cutoff) == Candidate(db, cutoff) - {k}
    ensures forall a :: EventKeys(WithoutSample(db, k.2), a) == EventKeys(db, a)
  {
    var after := WithoutSample(db, k.2);
    KeysMean(db, cutoff, 0, k);
    forall q
      ensures q in Candidate(after, cutoff) <==> q in Candidate(db, cutoff) - {k}
    {
      KeysMean(db, cutoff, 0, q);
      KeysMean(after, cutoff, 0, q);
    }
    forall a
      ensures EventKeys(after, a) == EventKeys(db, a)
    {
      EventKeysAlike(after, db, a);
    }
  }

  /** Deleting an alert without events takes its candidate away. */
  lemma AlertGoes(db: Db, cutoff: int, k: RowKey)
    requires k in AlertKeys(db, cutoff) && EventKeys(db, k.2) == {}
    ensures var after := db.(alerts := db.alerts - {k.2});
            Delete(db, DeleteAlert(k.2), cutoff) == Some(after) && Candidate(after, cutoff) == Candidate(db, cutoff) - {k}
  {
    var after := db.(alerts := db.alerts - {k.2});
    KeysMean(db, cutoff, 0, k);
    forall q
      ensures q in Candidate(after, cutoff) <==> q in Candidate(db, cutoff) - {k}
    {
      KeysMean(db, cutoff, 0, q);
      KeysMean(after, cutoff, 0, q);
    }
  }

  /** Deleting an event takes it away from its own alert and leaves the candidates alone. */
  lemma EventGoes(db: Db, cutoff: int, alertId: int, e: RowKey)
    requires e in EventKeys(db, alertId)
    ensures var after := db.(events := db.events - {e.2});
            && Delete(db, DeleteEvent(e.2, alertId), cutoff) == Some(after)
            && Candidate(after, cutoff) == Candidate(db, cutoff)
            && EventKeys(after, alertId) == EventKeys(db, alertId) - {e}
            && forall a :: a != alertId ==> EventKeys(after, a) == EventKeys(db, a)
  {
    var after := db.(events := db.events - {e.2});
    KeysMean(db, cutoff, alertId, e);
    forall q
      ensures q in EventKeys(after, alertId) <==> q in EventKeys(db, alertId) - {e}
    {
      KeysMean(db, cutoff, alertId, q);
      KeysMean(after, cutoff, alertId, q);
    }
    forall q
      ensures q in Candidate(after, cutoff) <==> q in Candidate(db, cutoff)
    {
      KeysMean(db, cutoff, alertId, q);
      KeysMean(after, cutoff, alertId, q);
    }
    forall a | a != alertId
      ensures EventKeys(after, a) == EventKeys(db, a)
    {
      EventKeysAlike(after, db, a);
    }
  }

  lemma ListStep(db: Db, cutoff: int)
    requires Candidate(db, cutoff) != {}
    ensures var all := Candidate(db, cutoff);
            var k := Least(all);
            && k in all
            && Sorted(all) == [k] + Sorted(all - {k})
            && Expired(db, cutoff) == Expand(db, k) + ExpandAll(db, Sorted(all - {k}))
  {
    hide Expand;
    var all := Candidate(db, cutoff);
    FetchStep(all, 1);
    assert ([Least(all)] + Sorted(all - {Least(all)}))[1..] == Sorted(all - {Least(all)});
  }

  lemma HeadAndTail<T>(x: seq<T>, y: seq<T>)
    requires x != []
    ensures (x + y)[0] == x[0] && (x + y)[1..] == x[1..] + y
  {
  }

  lemma NoCandidateNoList(db: Db, cutoff: int)
    ensures Candidate(db, cutoff) == {} ==> Expired(db, cutoff) == []
  {
    hide SampleKeys, AlertKeys, Expand;
  }

  /** Deleting the head of the list succeeds and leaves exactly its tail to delete. */
  lemma HeadIsDeleted(db: Db, cutoff: int)
    requires Expired(db, cutoff) != []
    ensures var after := Delete(db, Expired(db, cutoff)[0], cutoff);
            after.Some? && Expired(after.value, cutoff) == Expired(db, cutoff)[1..]
  {
    hide *;
    NoCandidateNoList(db, cutoff);
    ListStep(db, cutoff);
    var k := Least(Candidate(db, cutoff));
    HeadAndTail(Expand(db, k), ExpandAll(db, Sorted(Candidate(db, cutoff) - {k})));
    if k.1 == SAMPLE_TYPE {
      SampleHead(db, cutoff, k);
    } else if EventKeys(db, k.2) == {} {
      AlertHead(db, cutoff, k);
    } else {
      EventHead(db, cutoff, k);
    }
  }

  lemma BareAlertExpands(db: Db, k: RowKey)
    requires k.1 != SAMPLE_TYPE && EventKeys(db, k.2) == {}
    ensures Expand(db, k) == [DeleteAlert(k.2)]
  {
  }

  /** What goes with a candidate depends on its events alone. */
  lemma SameEventsExpandAlike(a: Db, b: Db, candidates: seq<RowKey>)
    requires forall id :: EventKeys(a, id) == EventKeys(b, id)
    ensures ExpandAll(a, candidates) == ExpandAll(b, candidates)
  {
    assert forall k: RowKey :: EventKeys(a, k.2) == EventKeys(b, k.2) ==> Expand(a, k) == Expand(b, k);
    hide *;
    ExpandsAlike(a, b, candidates);
  }

  lemma ListUnfolds(db: Db, cutoff: int)
    ensures Expired(db, cutoff) == ExpandAll(db, Sorted(Candidate(db, cutoff)))
  {
    hide ExpandAll, Sorted, SampleKeys, AlertKeys;
  }

  lemma SampleExpands(db: Db, cutoff: int, k: RowKey)
    requires k in Candidate(db, cutoff) && k.1 == SAMPLE_TYPE
    ensures k in SampleKeys(db, cutoff) && Expand(db, k) == [DeleteSample(k.2)]
  {
    hide SampleKeys, AlertKeys, EventKeys;
  }

  lemma SampleHead(db: Db, cutoff: int, k: RowKey)
    requires k in Candidate(db, cutoff) && k.1 == SAMPLE_TYPE
    ensures var after, rest := Delete(db, Expand(db, k)[0], cutoff), Sorted(Candidate(db, cutoff) - {k});
            && after.Some? && Expired(after.value, cutoff) == Expand(db, k)[1..] + ExpandAll(db, rest)
  {
    SampleExpands(db, cutoff, k);
    hide *;
    var after, rest := WithoutSample(db, k.2), Sorted(Candidate(db, cutoff) - {k});
    SampleGoes(db, cutoff, k);
    SameEventsExpandAlike(after, db, rest);
    ListUnfolds(after, cutoff);
  }

  lemma AlertHead(db: Db, cutoff: int, k: RowKey)
    requires k in Candidate(db, cutoff) && k.1 != SAMPLE_TYPE && EventKeys(db, k.2) == {}
    ensures var after, rest := Delete(db, Expand(db, k)[0], cutoff), Sorted(Candidate(db, cutoff) - {k});
            && after.Some? && Expired(after.value, cutoff) == Expand(db, k)[1..] + ExpandAll(db, rest)
  {
    assert k in AlertKeys(db, cutoff);
    hide *;
    var after, rest := db.(alerts := db.alerts - {k.2}), Sorted(Candidate(db, cutoff) - {k});
    BareAlertExpands(db, k);
    AlertGoes(db, cutoff, k);
    forall id
      ensures EventKeys(after, id) == EventKeys(db, id)
    {
      EventKeysAlike(after, db, id);
    }
    SameEventsExpandAlike(after, db, rest);
    ListUnfolds(after, cutoff);
  }

  lemma EventHead(db: Db, cutoff: int, k: RowKey)
    requires k in Candidate(db, cutoff) && k.1 != SAMPLE_TYPE && EventKeys(db, k.2) != {}
    requires k == Least(Candidate(db, cutoff))
    ensures var after, rest := Delete(db, Expand(db, k)[0], cutoff), Sorted(Candidate(db, cutoff) - {k});
            && after.Some? && Expired(after.value, cutoff) == Expand(db, k)[1..] + ExpandAll(db, rest)
  {
    hide *;
    var keys := EventKeys(db, k.2);
    FetchStep(keys, 1);
    var e := Least(keys);
    EventGoes(db, cutoff, k.2, e);
    var after := db.(events := db.events - {e.2});
    ListStep(after, cutoff);
    var rest := Sorted(Candidate(db, cutoff) - {k});
    OthersExpandAlike(db, after, cutoff, k, rest);
    ExpandsAlike(after, db, rest);
    ExpandShrinks(db, after, k, e);
  }

  lemma ExpandShrinks(db: Db, after: Db, k: RowKey, e: RowKey)
    requires k.1 != SAMPLE_TYPE && EventKeys(db, k.2) != {} && e == Least(EventKeys(db, k.2))
    requires EventKeys(after, k.2) == EventKeys(db, k.2) - {e}
    ensures Expand(db, k)[0] == DeleteEvent(e.2, k.2) && Expand(db, k)[1..] == Expand(after, k)
  {
    hide Sorted, Least, IsLeast, EventKeys, EventDeletions;
    var keys := EventKeys(db, k.2);
    EventListStep(keys, k.2);
    var tail := EventDeletions(Sorted(keys - {e}), k.2);
    TailOfSum(DeleteEvent(e.2, k.2), tail, DeleteAlert(k.2));
    assert Expand(db, k) == ([DeleteEvent(e.2, k.2)] + tail) + [DeleteAlert(k.2)];
  }

  lemma TailOfSum<T>(x: T, s: seq<T>, z: T)
    ensures (([x] + s) + [z])[0] == x && (([x] + s) + [z])[1..] == s + [z]
  {
  }

  lemma EventListStep(keys: set<RowKey>, alertId: int)
    requires keys != {}
    ensures EventDeletions(Sorted(keys), alertId) ==
              [DeleteEvent(Least(keys).2, alertId)] + EventDeletions(Sorted(keys - {Least(keys)}), alertId)
  {
    FetchStep(keys, 1);
    hide Sorted, Least, Before;
  }

  lemma OthersExpandAlike(db: Db, after: Db, cutoff: int, k: RowKey, rest: seq<RowKey>)
    requires k in Candidate(db, cutoff) && k.1 != SAMPLE_TYPE
    requires rest == Sorted(Candidate(db, cutoff) - {k})
    requires forall a :: a != k.2 ==> EventKeys(after, a) == EventKeys(db, a)
    ensures forall q :: q in rest ==> Expand(after, q) == Expand(db, q)
  {
    forall q | q in rest
      ensures Expand(after, q) == Expand(db, q)
    {
      KeysMean(db, cutoff, 0, q);
      KeysMean(db, cutoff, 0, k);
      assert q.1 != SAMPLE_TYPE ==> q.2 != k.2;
    }
  }

  // ---------- Whole cleanups ----------

  /** Deleting any number of rows from the head of the list leaves the rest of the list. */
  lemma {:induction false} HeadsAreDeleted(db: Db, cutoff: int, n: nat)
    requires n <= |Expired(db, cutoff)|
    ensures var after := DeleteAll(db, Expired(db, cutoff)[..n], cutoff);
            after.Some? && Expired(after.value, cutoff) == Expired(db, cutoff)[n..]
    decreases n
  {
    hide Expired, Delete;
    if n > 0 {
      var all := Expired(db, cutoff);
      HeadIsDeleted(db, cutoff);
      HeadsAreDeleted(Delete(db, all[0], cutoff).value, cutoff, n - 1);
      assert all[..n][0] == all[0] && all[..n][1..] == all[1..][..n - 1];
      assert all[n..] == all[1..][n - 1..];
    }
  }

  /** One cleanup that runs to completion. */
  function Cleanup(db: Db, cutoff: int): Option<Db> {
    DeleteAll(db, Plan(db, cutoff), cutoff)
  }

  /** A number of cleanups at the same cutoff. */
  function Cleanups(db: Db, cutoff: int, calls: nat): Option<Db> {
    if calls == 0 then Some(db)
    else
      match Cleanups(db, cutoff, calls - 1)
      case None => None
      case Some(before) => Cleanup(before, cutoff)
  }

  function DeletedAfter(db: Db, cutoff: int, calls: nat): nat {
    Min(RETENTION_ROW_BUDGET * calls, |Expired(db, cutoff)|)
  }

  lemma {:induction false} DeleteAllInTwo(db: Db, left: seq<Deletion>, right: seq<Deletion>, cutoff: int)
    ensures DeleteAll(db, left + right, cutoff) ==
              match DeleteAll(db, left, cutoff) case None => None case Some(next) => DeleteAll(next, right, cutoff)
    decreases |left|
  {
    hide Delete;
    if left == [] {
      assert left + right == right;
    } else {
      assert (left + right)[0] == left[0] && (left + right)[1..] == left[1..] + right;
      if Delete(db, left[0], cutoff).Some? {
        DeleteAllInTwo(Delete(db, left[0], cutoff).value, left[1..], right, cutoff);
      }
    }
  }

  lemma LimitIsPrefix<T>(rows: seq<T>, n: nat)
    ensures Limit(rows, n) == rows[..Min(n, |rows|)]
  {
  }

  /**
   * After any number of completed cleanups at one cutoff, exactly that many budgets of rows are
   * gone from the head of the list, in its order, and the rest of the list is still to go.
   */
  lemma {:induction false} CleanupsWorkOff(db: Db, cutoff: int, calls: nat)
    ensures var all, n := Expired(db, cutoff), DeletedAfter(db, cutoff, calls);
            var after := Cleanups(db, cutoff, calls);
            && after.Some?
            && after == DeleteAll(db, all[..n], cutoff)
            && Expired(after.value, cutoff) == all[n..]
  {
    hide Expired, Plan, DeleteAll;
    var all := Expired(db, cutoff);
    if calls == 0 {
      NothingDeleted(db, cutoff);
      assert all[..0] == [] && all[0..] == all;
    } else {
      CleanupsWorkOff(db, cutoff, calls - 1);
      var before, m, n := Cleanups(db, cutoff, calls - 1).value, DeletedAfter(db, cutoff, calls - 1), DeletedAfter(db, cutoff, calls);
      PlanIsHeadOfExpired(before, cutoff);
      LimitIsPrefix(all[m..], RETENTION_ROW_BUDGET);
      assert Plan(before, cutoff) == all[m..][..n - m];
      assert all[..m] + all[m..][..n - m] == all[..n];
      DeleteAllInTwo(db, all[..m], all[m..][..n - m], cutoff);
      HeadsAreDeleted(db, cutoff, n);
    }
  }

  lemma NothingDeleted(db: Db, cutoff: int)
    ensures DeleteAll(db, [], cutoff) == Some(db)
  {
  }

  /** There is work for a further cleanup exactly until the whole list is worked off. */
  lemma NoWorkExactlyWhenDone(db: Db, cutoff: int, calls: nat)
    ensures Cleanups(db, cutoff, calls).Some?
    ensures Plan(Cleanups(db, cutoff, calls).value, cutoff) == [] <==>
              RETENTION_ROW_BUDGET * calls >= |Expired(db, cutoff)|
  {
    hide Expired, Plan, DeleteAll;
    CleanupsWorkOff(db, cutoff, calls);
    PlanIsHeadOfExpired(Cleanups(db, cutoff, calls).value, cutoff);
  }

  // ---------- What is listed, in which order, and what is kept ----------

  predicate ShouldGo(db: Db, cutoff: int, action: Deletion) {
    match action
    case DeleteSample(id) => id in db.samples && SampleExpired(db.samples[id], cutoff)
    case DeleteAlert(id) => id in db.alerts && AlertExpired(db.alerts[id], cutoff)
    case DeleteEvent(id, alertId) =>
      && id in db.events && db.events[id].alertId == alertId
      && alertId in db.alerts && AlertExpired(db.alerts[alertId], cutoff)
  }

  lemma {:induction false} InSomeExpansion(db: Db, candidates: seq<RowKey>, action: Deletion)
    ensures action in ExpandAll(db, candidates) <==> exists i :: 0 <= i < |candidates| && action in Expand(db, candidates[i])
  {
    hide Expand;
    if candidates != [] {
      var rest := candidates[1..];
      InSomeExpansion(db, rest, action);
      if action in ExpandAll(db, rest) {
        var i :| 0 <= i < |rest| && action in Expand(db, rest[i]);
        assert action in Expand(db, candidates[i + 1]);
      }
      if exists i :: 0 <= i < |candidates| && action in Expand(db, candidates[i]) {
        var i :| 0 <= i < |candidates| && action in Expand(db, candidates[i]);
        assert i > 0 ==> action in Expand(db, rest[i - 1]);
      }
    }
  }

  lemma InExpansion(db: Db, k: RowKey, action: Deletion)
    ensures action in Expand(db, k) <==>
              match action
              case DeleteSample(id) => k.1 == SAMPLE_TYPE && id == k.2
              case DeleteAlert(id) => k.1 != SAMPLE_TYPE && id == k.2
              case DeleteEvent(id, a) => k.1 != SAMPLE_TYPE && a == k.2 && id in db.events && db.events[id].alertId == a
  {
    if k.1 != SAMPLE_TYPE {
      var rows := Sorted(EventKeys(db, k.2));
      hide Sorted, Before;
      assert Expand(db, k)[|rows|] == DeleteAlert(k.2);
      match action {
        case DeleteEvent(id, a) =>
          EventIsListed(db, k.2, rows, id);
        case _ =>
      }
    }
  }

  lemma EventIsListed(db: Db, alertId: int, rows: seq<RowKey>, id: int)
    requires rows == Sorted(EventKeys(db, alertId))
    ensures DeleteEvent(id, alertId) in EventDeletions(rows, alertId) <==> id in db.events && db.events[id].alertId == alertId
  {
    var actions := EventDeletions(rows, alertId);
    if id in db.events && db.events[id].alertId == alertId {
      var k := (db.events[id].at, 0, id);
      KeysMean(db, 0, alertId, k);
      var i :| 0 <= i < |rows| && rows[i] == k;
      assert actions[i] == DeleteEvent(id, alertId);
    }
    if DeleteEvent(id, alertId) in actions {
      var i :| 0 <= i < |actions| && actions[i] == DeleteEvent(id, alertId);
      KeysMean(db, 0, alertId, rows[i]);
    }
  }

  /** The list names exactly the expired samples, the expired alerts, and the events of those alerts. */
  lemma ListedExactly(db: Db, cutoff: int, action: Deletion)
    ensures action in Expired(db, cutoff) <==> ShouldGo(db, cutoff, action)
  {
    var rows := Sorted(Candidate(db, cutoff));
    hide Expand, Sorted, SampleKeys, AlertKeys;
    InSomeExpansion(db, rows, action);
    forall i | 0 <= i < |rows|
      ensures action in Expand(db, rows[i]) ==> ShouldGo(db, cutoff, action)
    {
      assert rows[i] in rows;
      InExpansion(db, rows[i], action);
      KeysMean(db, cutoff, 0, rows[i]);
    }
    if ShouldGo(db, cutoff, action) {
      var k := KeyOf(db, action);
      KeysMean(db, cutoff, 0, k);
      InExpansion(db, k, action);
      assert k in rows;
    }
  }

  /** The candidate that a deletion belongs to. */
  function KeyOf(db: Db, action: Deletion): RowKey {
    match action
    case DeleteSample(id) => (if id in db.samples then db.samples[id].observedAt else 0, SAMPLE_TYPE, id)
    case DeleteAlert(id) => AlertKey(db, id)
    case DeleteEvent(_, alertId) => AlertKey(db, alertId)
  }

  function AlertKey(db: Db, id: int): RowKey {
    (if id in db.alerts then OrZero(db.alerts[id].state.recoveredAt) else 0, ALERT_TYPE, id)
  }

  lemma DeletedAlertIsBare(db: Db, cutoff: int, id: int)
    requires Delete(db, DeleteAlert(id), cutoff).Some?
    ensures forall e :: e in db.events ==> db.events[e].alertId != id
  {
    assert EventKeys(db, id) == {};
    hide *;
    forall e | e in db.events
      ensures db.events[e].alertId != id
    {
      KeysMean(db, cutoff, id, (db.events[e].at, 0, e));
    }
  }

  /** When an alert's turn comes, all its events are gone. */
  lemma EventsGoFirst(db: Db, cutoff: int, n: nat)
    requires n < |Expired(db, cutoff)| && Expired(db, cutoff)[n].DeleteAlert?
    ensures var before := DeleteAll(db, Expired(db, cutoff)[..n], cutoff);
            && before.Some?
            && forall e :: e in before.value.events ==> before.value.events[e].alertId != Expired(db, cutoff)[n].id
  {
    hide *;
    HeadsAreDeleted(db, cutoff, n);
    var before := DeleteAll(db, Expired(db, cutoff)[..n], cutoff).value;
    HeadIsDeleted(before, cutoff);
    DeletedAlertIsBare(before, cutoff, Expired(db, cutoff)[n].id);
  }

  function Cleared(reference: Option<int>, actions: seq<Deletion>): Option<int> {
    if reference.Some? && DeleteSample(reference.value) in actions then None else reference
  }

  predicate KeepsEvaluation(before: Db, after: Db, actions: seq<Deletion>) {
    && after.evaluation.Keys == before.evaluation.Keys
    && forall scope :: scope in before.evaluation ==>
         var row := before.evaluation[scope];
         after.evaluation[scope] == row.(lastSample := Cleared(row.lastSample, actions))
  }

  ghost predicate KeepsSamples(before: Db, after: Db, actions: seq<Deletion>) {
    && (forall id :: id in after.samples <==> id in before.samples && DeleteSample(id) !in actions)
    && forall id :: id in after.samples ==> after.samples[id] == before.samples[id]
  }

  ghost predicate KeepsAlerts(before: Db, after: Db, actions: seq<Deletion>) {
    && (forall id :: id in after.alerts <==> id in before.alerts && DeleteAlert(id) !in actions)
    && forall id :: id in after.alerts ==>
         var row := before.alerts[id];
         after.alerts[id] == row.(
           firstSample := Cleared(row.firstSample, actions), latestSample := Cleared(row.latestSample, actions))
  }

  ghost predicate KeepsEvents(before: Db, after: Db, actions: seq<Deletion>) {
    && (forall id :: id in after.events <==> id in before.events && DeleteEvent(id, before.events[id].alertId) !in actions)
    && forall id :: id in after.events ==>
         var e := before.events[id];
         after.events[id] == e.(supportingSample := Cleared(e.supportingSample, actions))
  }

  /** Apart from the deleted rows, and from references to deleted samples, everything is as before. */
  ghost predicate KeepsTheRest(before: Db, after: Db, actions: seq<Deletion>) {
    && after.checkpoint == before.checkpoint && after.ledger == before.ledger
    && KeepsEvaluation(before, after, actions) && KeepsSamples(before, after, actions)
    && KeepsAlerts(before, after, actions) && KeepsEvents(before, after, actions)
  }

  lemma SampleDeletionKeeps(db: Db, id: int)
    ensures KeepsTheRest(db, WithoutSample(db, id), [DeleteSample(id)])
  {
  }

  lemma OneDeletionKeeps(db: Db, action: Deletion, cutoff: int)
    requires Delete(db, action, cutoff).Some?
    ensures KeepsTheRest(db, Delete(db, action, cutoff).value, [action])
  {
    hide EventKeys, WithoutSample, SampleExpired, AlertExpired;
    match action {
      case DeleteSample(id) => SampleDeletionKeeps(db, id);
      case DeleteEvent(_, _) =>
      case DeleteAlert(_) =>
    }
  }

  lemma EvaluationKeptTogether(before: Db, next: Db, after: Db, action: Deletion, rest: seq<Deletion>)
    requires KeepsEvaluation(before, next, [action]) && KeepsEvaluation(next, after, rest)
    ensures KeepsEvaluation(before, after, [action] + rest)
  {
  }

  lemma SamplesKeptTogether(before: Db, next: Db, after: Db, action: Deletion, rest: seq<Deletion>)
    requires KeepsSamples(before, next, [action]) && KeepsSamples(next, after, rest)
    ensures KeepsSamples(before, after, [action] + rest)
  {
  }

  lemma AlertsKeptTogether(before: Db, next: Db, after: Db, action: Deletion, rest: seq<Deletion>)
    requires KeepsAlerts(before, next, [action]) && KeepsAlerts(next, after, rest)
    ensures KeepsAlerts(before, after, [action] + rest)
  {
  }

  lemma EventsKeptTogether(before: Db, next: Db, after: Db, action: Deletion, rest: seq<Deletion>)
    requires KeepsEvents(before, next, [action]) && KeepsEvents(next, after, rest)
    ensures KeepsEvents(before, after, [action] + rest)
  {
  }

  lemma KeptTogether(before: Db, next: Db, after: Db, action: Deletion, rest: seq<Deletion>)
    requires KeepsTheRest(before, next, [action]) && KeepsTheRest(next, after, rest)
    ensures KeepsTheRest(before, after, [action] + rest)
  {
    hide KeepsEvaluation, KeepsSamples, KeepsAlerts, KeepsEvents;
    EvaluationKeptTogether(before, next, after, action, rest);
    SamplesKeptTogether(before, next, after, action, rest);
    AlertsKeptTogether(before, next, after, action, rest);
    EventsKeptTogether(before, next, after, action, rest);
  }

  lemma {:induction false} DeletionsKeepTheRest(db: Db, actions: seq<Deletion>, cutoff: int)
    requires DeleteAll(db, actions, cutoff).Some?
    ensures KeepsTheRest(db, DeleteAll(db, actions, cutoff).value, actions)
    decreases |actions|
  {
    if actions != [] {
      hide KeepsTheRest, Delete;
      OneDeletionKeeps(db, actions[0], cutoff);
      var next := Delete(db, actions[0], cutoff).value;
      DeletionsKeepTheRest(next, actions[1..], cutoff);
      KeptTogether(db, next, DeleteAll(db, actions, cutoff).value, actions[0], actions[1..]);
      assert [actions[0]] + actions[1..] == actions;
    }
  }
}
