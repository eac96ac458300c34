/** What one cleanup leaves and takes, said about the rows and their times alone. */
module RetentionEffects {
  import opened Wrappers
  import opened HealthModels
  import opened RowOrder
  import opened HistoryTables
  import opened Retention
  import opened RetentionRuns
  import opened MixedRuns

  /** An alert is old when it is archived and recovered before this time. */
  predicate OldAlert(row: AlertRow, time: int) {
    row.state.lifecycle == Archived && row.state.recoveredAt.Some? && row.state.recoveredAt.value < time
  }

  /** What is not older than this time is still there, with its content. */
  ghost predicate KeepsRecent(before: Db, after: Db, time: int) {
    && (forall id :: id in before.samples && before.samples[id].observedAt >= time ==>
          id in after.samples && after.samples[id] == before.samples[id])
    && (forall id :: id in before.alerts && !OldAlert(before.alerts[id], time) ==>
          id in after.alerts && after.alerts[id].state == before.alerts[id].state
          && after.alerts[id].openedAt == before.alerts[id].openedAt && after.alerts[id].archivedAt == before.alerts[id].archivedAt)
    && (forall id ::
          (id in before.events && before.events[id].alertId in before.alerts
           && !OldAlert(before.alerts[before.events[id].alertId], time)) ==>
            id in after.events && after.events[id].(supportingSample := None) == before.events[id].(supportingSample := None))
  }

  /** Nothing is there that was not there before. */
  ghost predicate AddsNothing(before: Db, after: Db) {
    && (forall id :: id in after.samples ==> id in before.samples)
    && (forall id :: id in after.alerts ==> id in before.alerts)
    && (forall id :: id in after.events ==> id in before.events)
  }

  /** No sample and no alert is older than this time. */
  ghost predicate NothingOld(db: Db, time: int) {
    && (forall id :: id in db.samples ==> db.samples[id].observedAt >= time)
    && (forall id :: id in db.alerts ==> !OldAlert(db.alerts[id], time))
  }

  /** What is gone is not younger than the mark, and what is old and left is not older than it. */
  ghost predicate DividedAt(before: Db, after: Db, time: int, mark: int) {
    && (forall id :: id in before.samples && id !in after.samples ==> before.samples[id].observedAt <= mark)
    && (forall id :: id in before.alerts && id !in after.alerts ==> OldAlert(before.alerts[id], mark + 1))
    && (forall id :: id in before.events && id !in after.events ==>
          before.events[id].alertId in before.alerts && OldAlert(before.alerts[before.events[id].alertId], mark + 1))
    && (forall id :: id in after.samples && after.samples[id].observedAt < time ==> mark <= after.samples[id].observedAt)
    && (forall id :: id in after.alerts && OldAlert(after.alerts[id], time) ==> mark <= after.alerts[id].state.recoveredAt.value)
  }

  // ---------- The order of the list ----------

  lemma KeyOfAction(db: Db, cutoff: int, k: RowKey, action: Deletion)
    requires k in Candidate(db, cutoff) && action in Expand(db, k)
    ensures KeyOf(db, action) == k
  {
    hide Expand;
    InExpansion(db, k, action);
    KeysMean(db, cutoff, 0, k);
  }

  /** The candidates of a list of deletions come in order. */
  ghost predicate InOrder(db: Db, actions: seq<Deletion>) {
    forall i, j :: 0 <= i < j < |actions| ==> KeyOf(db, actions[i]).0 <= KeyOf(db, actions[j]).0
  }

  lemma {:induction false} ExpansionInOrder(db: Db, cutoff: int, rows: seq<RowKey>)
    requires forall i :: 0 <= i < |rows| ==> rows[i] in Candidate(db, cutoff)
    requires forall i, j :: 0 <= i < j < |rows| ==> rows[i].0 <= rows[j].0
    ensures InOrder(db, ExpandAll(db, rows))
    ensures forall action :: action in ExpandAll(db, rows) ==> exists i :: 0 <= i < |rows| && KeyOf(db, action).0 == rows[i].0
  {
    hide Expand, KeyOf, Candidate;
    if rows != [] {
      var rest := rows[1..];
      ExpansionInOrder(db, cutoff, rest);
      var head, tail := Expand(db, rows[0]), ExpandAll(db, rest);
      forall action | action in head
        ensures KeyOf(db, action) == rows[0]
      {
        KeyOfAction(db, cutoff, rows[0], action);
      }
      forall action | action in tail
        ensures exists i :: 0 <= i < |rows| && KeyOf(db, action).0 == rows[i].0
      {
        var i :| 0 <= i < |rest| && KeyOf(db, action).0 == rest[i].0;
        assert rest[i] == rows[i + 1];
      }
      TogetherInOrder(db, head, tail, rows[0].0);
    }
  }

  lemma TogetherInOrder(db: Db, head: seq<Deletion>, tail: seq<Deletion>, time: int)
    requires InOrder(db, tail) && forall action :: action in head ==> KeyOf(db, action).0 == time
    requires forall action :: action in tail ==> time <= KeyOf(db, action).0
    ensures InOrder(db, head + tail)
  {
    hide KeyOf;
  }

  lemma ListInOrder(db: Db, cutoff: int)
    ensures InOrder(db, Expired(db, cutoff))
  {
    hide Expand, SampleKeys, AlertKeys, InOrder;
    var rows := Sorted(Candidate(db, cutoff));
    forall i, j | 0 <= i < j < |rows|
      ensures rows[i].0 <= rows[j].0
    {
      assert Before(rows[i], rows[j]);
    }
    ExpansionInOrder(db, cutoff, rows);
  }

  // ---------- One cleanup ----------

  lemma PlannedShouldGo(db: Db, cutoff: int)
    ensures forall action :: action in Plan(db, cutoff) ==> ShouldGo(db, cutoff, action)
  {
    hide Expired, Plan, ShouldGo;
    PlanIsHeadOfExpired(db, cutoff);
    forall action | action in Plan(db, cutoff)
      ensures ShouldGo(db, cutoff, action)
    {
      ListedExactly(db, cutoff, action);
    }
  }

  lemma RecentIsKept(before: Db, after: Db, cutoff: int, actions: seq<Deletion>)
    requires KeepsTheRest(before, after, actions)
    requires forall action :: action in actions ==> ShouldGo(before, cutoff, action)
    ensures KeepsRecent(before, after, cutoff) && AddsNothing(before, after)
  {
    hide KeepsEvaluation, Cleared;
    forall id | id in before.samples && before.samples[id].observedAt >= cutoff
      ensures DeleteSample(id) !in actions
    {
    }
    forall id | id in before.events && before.events[id].alertId in before.alerts && !OldAlert(before.alerts[before.events[id].alertId], cutoff)
      ensures DeleteEvent(id, before.events[id].alertId) !in actions
    {
    }
    forall id | id in before.alerts && !OldAlert(before.alerts[id], cutoff)
      ensures DeleteAlert(id) !in actions
    {
    }
  }

  /** The mark between what goes and what stays: the time of the first candidate that does not go. */
  function Mark(db: Db, cutoff: int, n: nat): int {
    if n < |Expired(db, cutoff)| then KeyOf(db, Expired(db, cutoff)[n]).0 else cutoff
  }

  lemma GoneIsOld(db: Db, cutoff: int, action: Deletion, n: nat)
    requires action in Expired(db, cutoff)[..Min(n, |Expired(db, cutoff)|)]
    ensures ShouldGo(db, cutoff, action) && KeyOf(db, action).0 <= Mark(db, cutoff, n) && KeyOf(db, action).0 < cutoff
  {
    hide Expired, KeyOf;
    var all := Expired(db, cutoff);
    ListInOrder(db, cutoff);
    ListedExactly(db, cutoff, action);
    var i :| 0 <= i < Min(n, |all|) && all[i] == action;
    OldKey(db, cutoff, action);
  }

  lemma OldKey(db: Db, cutoff: int, action: Deletion)
    requires ShouldGo(db, cutoff, action)
    ensures KeyOf(db, action).0 < cutoff
  {
  }

  lemma NotInPrefix<T>(all: seq<T>, i: nat, n: nat)
    requires i < |all| && n <= |all|
    ensures i < n ==> all[i] in all[..n]
  {
    if i < n {
      assert all[..n][i] == all[i];
    }
  }

  lemma LeftIsYounger(db: Db, cutoff: int, action: Deletion, n: nat)
    requires ShouldGo(db, cutoff, action) && action !in Expired(db, cutoff)[..Min(n, |Expired(db, cutoff)|)]
    ensures n < |Expired(db, cutoff)| && Mark(db, cutoff, n) <= KeyOf(db, action).0
  {
    hide Expired, KeyOf, ShouldGo;
    var all := Expired(db, cutoff);
    ListInOrder(db, cutoff);
    ListedExactly(db, cutoff, action);
    var i :| 0 <= i < |all| && all[i] == action;
    NotInPrefix(all, i, Min(n, |all|));
  }

  lemma DividedAtMark(before: Db, after: Db, cutoff: int, n: nat)
    requires KeepsTheRest(before, after, Expired(before, cutoff)[..Min(n, |Expired(before, cutoff)|)])
    ensures DividedAt(before, after, cutoff, Mark(before, cutoff, n))
  {
    hide Expired, Mark, KeepsEvaluation;
    var actions, mark := Expired(before, cutoff)[..Min(n, |Expired(before, cutoff)|)], Mark(before, cutoff, n);
    forall action | action in actions
      ensures ShouldGo(before, cutoff, action) && KeyOf(before, action).0 <= mark
    {
      GoneIsOld(before, cutoff, action, n);
    }
    forall id | id in after.samples && after.samples[id].observedAt < cutoff
      ensures mark <= after.samples[id].observedAt
    {
      LeftIsYounger(before, cutoff, DeleteSample(id), n);
    }
    forall id | id in after.alerts && OldAlert(after.alerts[id], cutoff)
      ensures mark <= after.alerts[id].state.recoveredAt.value
    {
      LeftIsYounger(before, cutoff, DeleteAlert(id), n);
    }
  }

  /**
   * One cleanup keeps what is recent, with its content, takes away the oldest rows first, and if it deletes
   * fewer than 500 of them nothing older than the cutoff is left.
   */
  lemma CleanupEffects(db: Db, cutoff: int)
    ensures Cleanup(db, cutoff).Some?
    ensures var after := Cleanup(db, cutoff).value;
            && KeepsRecent(db, after, cutoff) && AddsNothing(db, after)
            && (exists mark :: DividedAt(db, after, cutoff, mark))
            && (|Plan(db, cutoff)| < 500 ==> NothingOld(after, cutoff))
  {
    hide *;
    CleanupCompletes(db, cutoff);
    DeletedByPlan(db, cutoff);
    PlannedShouldGo(db, cutoff);
    PlanIsPrefix(db, cutoff);
    var after := Cleanup(db, cutoff).value;
    RecentIsKept(db, after, cutoff, Plan(db, cutoff));
    DividedAtMark(db, after, cutoff, 500);
    assert DividedAt(db, after, cutoff, Mark(db, cutoff, 500));
    if |Plan(db, cutoff)| < 500 {
      NoneLeftOld(db, after, cutoff);
    }
  }

  lemma DeletedByPlan(db: Db, cutoff: int)
    requires Cleanup(db, cutoff).Some?
    ensures KeepsTheRest(db, Cleanup(db, cutoff).value, Plan(db, cutoff))
  {
    hide Plan, KeepsTheRest;
    DeletionsKeepTheRest(db, Plan(db, cutoff), cutoff);
  }

  lemma PlanIsPrefix(db: Db, cutoff: int)
    ensures Plan(db, cutoff) == Expired(db, cutoff)[..Min(500, |Expired(db, cutoff)|)]
  {
    hide Plan, Expired;
    PlanIsHeadOfExpired(db, cutoff);
    LimitIsPrefix(Expired(db, cutoff), 500);
  }

  lemma NoneLeftOld(before: Db, after: Db, cutoff: int)
    requires KeepsTheRest(before, after, Plan(before, cutoff)) && |Plan(before, cutoff)| < 500
    ensures NothingOld(after, cutoff)
  {
    PlanIsPrefix(before, cutoff);
    hide Plan, Expired, KeepsEvaluation, Cleared;
    assert Plan(before, cutoff) == Expired(before, cutoff);
    forall id | id in after.samples
      ensures after.samples[id].observedAt >= cutoff
    {
      ListedExactly(before, cutoff, DeleteSample(id));
    }
    forall id | id in after.alerts
      ensures !OldAlert(after.alerts[id], cutoff)
    {
      ListedExactly(before, cutoff, DeleteAlert(id));
    }
  }

  lemma EverythingIsKept(db: Db, time: int)
    ensures KeepsRecent(db, db, time) && AddsNothing(db, db)
  {
  }

  /** There is nothing to delete exactly if nothing is old. */
  lemma NothingOldNothingPlanned(db: Db, cutoff: int)
    ensures Plan(db, cutoff) == [] <==> NothingOld(db, cutoff)
  {
    hide Plan, NothingOld, ShouldGo;
    PlannedShouldGo(db, cutoff);
    CleanupEffects(db, cutoff);
    if Plan(db, cutoff) != [] {
      assert Plan(db, cutoff)[0] in Plan(db, cutoff);
      SomethingIsOld(db, cutoff, Plan(db, cutoff)[0]);
    }
  }

  lemma SomethingIsOld(db: Db, cutoff: int, action: Deletion)
    requires ShouldGo(db, cutoff, action)
    ensures !NothingOld(db, cutoff)
  {
  }
}
