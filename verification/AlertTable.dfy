/**
 * What every reachable alert table looks like: per scope and kind at most one alert is not yet
 * archived, and it is the newest of its pair.  Under that invariant no alert query can fail.
 */
module AlertTable {
  import opened Wrappers
  import opened HealthModels
  import opened Lifecycle
  import opened RowOrder
  import opened HistoryTables
  import opened Ingestion

  predicate SamePair(a: AlertRow, b: AlertRow) {
    a.state.scope == b.state.scope && a.state.kind == b.state.kind
  }

  predicate Live(row: AlertRow) {
    row.state.lifecycle != Archived
  }

  ghost predicate LiveIsNewest(alerts: map<int, AlertRow>) {
    forall i, j :: i in alerts && j in alerts && Live(alerts[i]) && SamePair(alerts[i], alerts[j]) ==> j <= i
  }

  ghost predicate AlertsOk(alerts: map<int, AlertRow>) {
    && (forall id :: id in alerts ==> id >= 1 && AlertConstraints(alerts[id]))
    && LiveIsNewest(alerts)
  }

  // ---------- Counting ----------

  /** Rows that differ in a rank below `n` are at most `n` many. */
  lemma {:induction false} DistinctRanks(keys: set<RowKey>, rank: RowKey -> int, n: nat)
    requires forall k :: k in keys ==> 0 <= rank(k) < n
    requires forall k, l :: k in keys && l in keys && rank(k) == rank(l) ==> k == l
    ensures |keys| <= n
  {
    if keys != {} {
      assert rank(Pick(keys)) < n;
      var top := set k | k in keys && rank(k) == n - 1;
      DistinctRanks(keys - top, rank, n - 1);
      if top == {} {
        assert keys - top == keys;
      } else {
        var k := Pick(top);
        assert top == {k};
        assert |keys| == |keys - {k}| + 1;
      }
    }
  }

  /** The eleven pairs of scope and kind. */
  function PairRank(scope: AlertScope, kind: AlertKind): int {
    match scope
    case Sampling => 10
    case Overall => if kind == DegradedAlert then 0 else 1
    case Component(name) => 2 * ComponentIndex(name) + (if kind == DegradedAlert then 2 else 3)
  }

  lemma PairRankIdentifies(a: AlertState, b: AlertState)
    requires a.Valid() && b.Valid()
    ensures 0 <= PairRank(a.scope, a.kind) < MAX_RELEVANT_ALERTS
    ensures PairRank(a.scope, a.kind) == PairRank(b.scope, b.kind) ==> a.scope == b.scope && a.kind == b.kind
  {
    if a.scope.Component? && b.scope.Component? {
      assert ComponentAt(ComponentIndex(a.scope.name)) == a.scope.name;
    }
  }

  lemma EligibleDiffer(db: Db, now: int, k: RowKey, l: RowKey)
    requires AlertsOk(db.alerts) && k in EligibleKeys(db, now) && l in EligibleKeys(db, now)
    ensures var a, b := db.alerts[k.2].state, db.alerts[l.2].state;
            0 <= PairRank(a.scope, a.kind) < MAX_RELEVANT_ALERTS
            && (PairRank(a.scope, a.kind) == PairRank(b.scope, b.kind) ==> k == l)
  {
    hide PairRank;
    PairRankIdentifies(db.alerts[k.2].state, db.alerts[l.2].state);
    assert SamePair(db.alerts[k.2], db.alerts[l.2]) ==> SamePair(db.alerts[l.2], db.alerts[k.2]);
  }

  /** Never more than eleven alerts wait for archival. */
  lemma EligibleAreBounded(db: Db, now: int)
    requires AlertsOk(db.alerts)
    ensures |EligibleKeys(db, now)| <= MAX_RELEVANT_ALERTS
  {
    hide EligibleKeys, PairRank, AlertsOk;
    var keys := EligibleKeys(db, now);
    var rank := (k: RowKey) =>
      if k.2 in db.alerts then PairRank(db.alerts[k.2].state.scope, db.alerts[k.2].state.kind) else 0;
    forall k, l | k in keys && l in keys
      ensures 0 <= rank(k) < MAX_RELEVANT_ALERTS
      ensures rank(k) == rank(l) ==> k == l
    {
      EligibleDiffer(db, now, k, l);
    }
    DistinctRanks(keys, rank, MAX_RELEVANT_ALERTS);
  }

  /** Never more than two health alerts of one scope are active. */
  lemma ActiveHealthIsBounded(db: Db, scope: AlertScope)
    requires AlertsOk(db.alerts)
    ensures |ActiveHealthKeys(db, scope)| <= 2
  {
    DistinctRanks(ActiveHealthKeys(db, scope), (k: RowKey) => k.0, 2);
  }

  /** At most one alert of a pair is active. */
  lemma ActiveIsUnique(alerts: map<int, AlertRow>, scope: AlertScope, kind: AlertKind)
    requires AlertsOk(alerts)
    ensures |ActiveIds(alerts, scope, kind)| <= 1
  {
    var ids := ActiveIds(alerts, scope, kind);
    if ids != {} {
      var id := Pick(ids);
      forall other | other in ids
        ensures other == id
      {
        assert SamePair(alerts[id], alerts[other]) && SamePair(alerts[other], alerts[id]);
      }
      assert ids == {id};
    }
  }

  // ---------- Reading never fails ----------

  lemma {:induction false} ReadsSucceed(db: Db, rows: seq<RowKey>)
    requires AlertsOk(db.alerts)
    requires forall i :: 0 <= i < |rows| ==> rows[i].2 in db.alerts
    ensures ReadAlerts(db, rows).Success?
    ensures var stored := ReadAlerts(db, rows).value;
            && |stored| == |rows|
            && forall i :: 0 <= i < |rows| ==> stored[i] == StoredAlert(rows[i].2, db.alerts[rows[i].2].state)
  {
    if rows != [] {
      ReadsSucceed(db, rows[1..]);
    }
  }

  /** `stored` lists exactly the active health alerts of a scope, one for each of its kinds. */
  ghost predicate ListsActiveHealth(db: Db, scope: AlertScope, stored: seq<StoredAlert>) {
    && |stored| <= 2
    && (forall i :: 0 <= i < |stored| ==>
          && stored[i].id in db.alerts
          && stored[i].state == db.alerts[stored[i].id].state
          && IsActiveHealth(db.alerts[stored[i].id], scope))
    && (forall i, j :: 0 <= i < j < |stored| ==> stored[i].state.kind != stored[j].state.kind)
    && (forall id :: id in db.alerts && IsActiveHealth(db.alerts[id], scope) ==>
          exists i :: 0 <= i < |stored| && stored[i].id == id)
  }

  /** Two active health alerts of one scope differ in kind. */
  lemma KeysDiffer(db: Db, scope: AlertScope, a: RowKey, b: RowKey)
    requires AlertsOk(db.alerts)
    requires a in ActiveHealthKeys(db, scope) && b in ActiveHealthKeys(db, scope) && a != b
    ensures db.alerts[a.2].state.kind != db.alerts[b.2].state.kind
  {
    var left, right := db.alerts[a.2], db.alerts[b.2];
    assert left.state.kind == right.state.kind ==> SamePair(left, right) && SamePair(right, left);
  }

  lemma ListedOnce(db: Db, scope: AlertScope, rows: seq<RowKey>)
    requires AlertsOk(db.alerts)
    requires rows == Sorted(ActiveHealthKeys(db, scope))
    ensures forall i, j :: 0 <= i < j < |rows| ==>
              db.alerts[rows[i].2].state.kind != db.alerts[rows[j].2].state.kind
  {
    forall i, j | 0 <= i < j < |rows|
      ensures db.alerts[rows[i].2].state.kind != db.alerts[rows[j].2].state.kind
    {
      assert Before(rows[i], rows[j]);
      KeysDiffer(db, scope, rows[i], rows[j]);
    }
  }

  lemma ListedWhole(db: Db, scope: AlertScope, rows: seq<RowKey>)
    requires rows == Sorted(ActiveHealthKeys(db, scope))
    ensures forall id :: id in db.alerts && IsActiveHealth(db.alerts[id], scope) ==>
              exists i :: 0 <= i < |rows| && rows[i].2 == id
  {
    forall id | id in db.alerts && IsActiveHealth(db.alerts[id], scope)
      ensures exists i :: 0 <= i < |rows| && rows[i].2 == id
    {
      var k := (KindRank(db.alerts[id].state.kind), 0, id);
      assert k in ActiveHealthKeys(db, scope) && k in rows;
    }
  }

  lemma ListingIsComplete(db: Db, scope: AlertScope, rows: seq<RowKey>, stored: seq<StoredAlert>)
    requires AlertsOk(db.alerts)
    requires rows == Sorted(ActiveHealthKeys(db, scope)) && |rows| <= 2
    requires |stored| == |rows|
    requires forall i :: 0 <= i < |rows| ==> stored[i] == StoredAlert(rows[i].2, db.alerts[rows[i].2].state)
    ensures ListsActiveHealth(db, scope, stored)
  {
    ListedOnce(db, scope, rows);
    ListedWhole(db, scope, rows);
    forall i | 0 <= i < |stored|
      ensures IsActiveHealth(db.alerts[stored[i].id], scope)
    {
      assert rows[i] in ActiveHealthKeys(db, scope);
    }
  }

  lemma ActiveHealthIsRead(db: Db, scope: AlertScope)
    requires AlertsOk(db.alerts)
    ensures ActiveHealthAlerts(db, scope).Success?
    ensures ListsActiveHealth(db, scope, ActiveHealthAlerts(db, scope).value)
  {
    hide AlertsOk, ListsActiveHealth, ActiveHealthKeys, Fetch, ReadAlerts, IsActiveHealth;
    ActiveHealthIsBounded(db, scope);
    var rows := Fetch(ActiveHealthKeys(db, scope), 3);
    ReadsSucceed(db, rows);
    ListingIsComplete(db, scope, rows, ReadAlerts(db, rows).value);
  }

  /** `stored` is the only alert of a pair that may still be live. */
  ghost predicate IsCurrentOfPair(db: Db, scope: AlertScope, kind: AlertKind, stored: Option<StoredAlert>) {
    match stored
    case None => forall id :: id in db.alerts ==> !OfPair(db.alerts[id], scope, kind)
    case Some(alert) =>
      && alert.id in db.alerts
      && alert.state == db.alerts[alert.id].state
      && OfPair(db.alerts[alert.id], scope, kind)
      && (forall id :: id in db.alerts && id != alert.id && OfPair(db.alerts[id], scope, kind) ==>
            !Live(db.alerts[id]))
  }

  /** Reading the current alert of a pair succeeds and finds the live one. */
  lemma CurrentIsRead(db: Db, scope: AlertScope, kind: AlertKind)
    requires AlertsOk(db.alerts)
    ensures CurrentOrLatest(db, scope, kind).Success?
    ensures IsCurrentOfPair(db, scope, kind, CurrentOrLatest(db, scope, kind).value)
  {
    ActiveIsUnique(db.alerts, scope, kind);
    var active, terminal := ActiveIds(db.alerts, scope, kind), TerminalIds(db.alerts, scope, kind);
    forall id | id in db.alerts && OfPair(db.alerts[id], scope, kind)
      ensures id in active || id in terminal
    {
    }
    if active != {} {
      LiveHidesOthers(db, scope, kind, Latest(active));
    } else if terminal != {} {
      var latest := Latest(terminal);
      forall id | id in db.alerts && id != latest && OfPair(db.alerts[id], scope, kind)
        ensures !Live(db.alerts[id])
      {
        assert id in terminal && id < latest;
        assert SamePair(db.alerts[id], db.alerts[latest]);
      }
    }
  }

  lemma LiveHidesOthers(db: Db, scope: AlertScope, kind: AlertKind, live: int)
    requires AlertsOk(db.alerts)
    requires live in db.alerts && OfPair(db.alerts[live], scope, kind) && Live(db.alerts[live])
    ensures forall id :: id in db.alerts && id != live && OfPair(db.alerts[id], scope, kind) ==>
              !Live(db.alerts[id])
  {
    forall id | id in db.alerts && id != live && OfPair(db.alerts[id], scope, kind)
      ensures !Live(db.alerts[id])
    {
      assert SamePair(db.alerts[id], db.alerts[live]) && SamePair(db.alerts[live], db.alerts[id]);
    }
  }
}
