/**
 * `ORDER BY` and `LIMIT` over the rows a query selects.  A selected row is represented by the
 * triple its query sorts by, whose last component is the row id, so no two rows tie.
 */
module RowOrder {

  type RowKey = (int, int, int)

  predicate Before(a: RowKey, b: RowKey) {
    || a.0 < b.0
    || (a.0 == b.0 && a.1 < b.1)
    || (a.0 == b.0 && a.1 == b.1 && a.2 < b.2)
  }

  predicate IsLeast(k: RowKey, keys: set<RowKey>) {
    k in keys && forall other :: other in keys ==> other == k || Before(k, other)
  }

  lemma {:induction false} LeastExists(keys: set<RowKey>)
    requires keys != {}
    ensures exists k :: IsLeast(k, keys)
  {
    var some :| some in keys;
    var rest := keys - {some};
    if rest == {} {
      assert keys == {some};
      assert IsLeast(some, keys);
    } else {
      LeastExists(rest);
      var least :| IsLeast(least, rest);
      assert keys == rest + {some};
      assert IsLeast(if Before(some, least) then some else least, keys);
    }
  }

  function Least(keys: set<RowKey>): (k: RowKey)
    requires keys != {}
    ensures IsLeast(k, keys)
  {
    LeastExists(keys);
    var k :| k in keys && IsLeast(k, keys);
    k
  }

  /** The selected rows in query order. */
  function Sorted(keys: set<RowKey>): (rows: seq<RowKey>)
    ensures |rows| == |keys|
    ensures forall k :: k in rows <==> k in keys
    ensures forall i, j :: 0 <= i < j < |rows| ==> Before(rows[i], rows[j])
  {
    if keys == {} then []
    else
      var first := Least(keys);
      [first] + Sorted(keys - {first})
  }

  function Limit<T>(rows: seq<T>, n: nat): seq<T> {
    if |rows| <= n then rows else rows[..n]
  }

  function Fetch(keys: set<RowKey>, limit: nat): (rows: seq<RowKey>)
    ensures |rows| <= limit
    ensures forall i :: 0 <= i < |rows| ==> rows[i] in keys
    ensures |keys| <= limit ==> rows == Sorted(keys)
    ensures |keys| > limit ==> |rows| == limit
  {
    Limit(Sorted(keys), limit)
  }

  /** The largest of some row ids: the row that `ORDER BY id DESC` puts first. */
  function Latest(ids: set<int>): (id: int)
    requires ids != {}
    ensures id in ids && forall other :: other in ids ==> other <= id
  {
    LatestExists(ids);
    var id :| id in ids && forall other :: other in ids ==> other <= id;
    id
  }

  lemma {:induction false} LatestExists(ids: set<int>)
    requires ids != {}
    ensures exists id :: id in ids && forall other :: other in ids ==> other <= id
  {
    var some := Pick(ids);
    var rest := ids - {some};
    if rest == {} {
      OnlyOneIsLargest(ids, some);
    } else {
      LatestExists(rest);
      var latest :| latest in rest && forall other :: other in rest ==> other <= latest;
      OneMoreLargest(ids, some, latest);
    }
  }

  lemma OnlyOneIsLargest(ids: set<int>, some: int)
    requires some in ids && ids - {some} == {}
    ensures forall other :: other in ids ==> other <= some
  {
    forall other | other in ids
      ensures other <= some
    {
      assert other in ids - {some} || other == some;
    }
  }

  lemma OneMoreLargest(ids: set<int>, some: int, latest: int)
    requires some in ids && latest in ids
    requires forall other :: other in ids - {some} ==> other <= latest
    ensures exists id :: id in ids && forall other :: other in ids ==> other <= id
  {
    var winner := if some > latest then some else latest;
    forall other | other in ids
      ensures other <= winner
    {
      assert other in ids - {some} || other == some;
    }
  }

  ghost function Pick<T>(s: set<T>): (x: T)
    requires s != {}
    ensures x in s
  {
    var x :| x in s;
    x
  }

  /** The id that an insert into a table with these rowids receives. */
  function NextId(ids: set<int>): (id: int)
    ensures id !in ids && forall other :: other in ids ==> other < id
    ensures (forall other :: other in ids ==> other >= 1) ==> id >= 1
  {
    if ids == {} then 1 else Latest(ids) + 1
  }

  /** Two ordered listings of the same rows are the same listing. */
  lemma {:induction false} ListingIsUnique(a: seq<RowKey>, b: seq<RowKey>)
    requires forall k :: k in a <==> k in b
    requires forall i, j :: 0 <= i < j < |a| ==> Before(a[i], a[j])
    requires forall i, j :: 0 <= i < j < |b| ==> Before(b[i], b[j])
    ensures a == b
  {
    assert a != [] ==> a[0] in b;
    assert b != [] ==> b[0] in a;
    if a != [] {
      var i :| 0 <= i < |a| && a[i] == b[0];
      var j :| 0 <= j < |b| && b[j] == a[0];
      assert a[0] == b[0];
      forall k
        ensures k in a[1..] <==> k in b[1..]
      {
        if k in a[1..] {
          var n :| 0 <= n < |a| - 1 && a[1..][n] == k;
          assert Before(a[0], a[n + 1]);
          assert k in b;
        }
        if k in b[1..] {
          var n :| 0 <= n < |b| - 1 && b[1..][n] == k;
          assert Before(b[0], b[n + 1]);
          assert k in a;
        }
      }
      ListingIsUnique(a[1..], b[1..]);
    }
  }
}
