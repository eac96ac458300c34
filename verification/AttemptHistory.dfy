/** The full history of a login-attempt limiter, and what a sliding window shows of it. */
module AttemptHistory {

  datatype Attempt<C> = Accepted(client: C, at: real) | Cleared(client: C)

  /** The stamps after the cutoff, in order. */
  function After(stamps: seq<real>, cutoff: real): (kept: seq<real>)
    ensures |kept| <= |stamps|
  {
    if stamps == [] then []
    else
      var kept := After(stamps[..|stamps| - 1], cutoff);
      if stamps[|stamps| - 1] > cutoff then kept + [stamps[|stamps| - 1]] else kept
  }

  /** When attempts were accepted, by anybody. */
  function AllStamps<C>(history: seq<Attempt<C>>): seq<real> {
    if history == [] then []
    else
      var before := AllStamps(history[..|history| - 1]);
      match history[|history| - 1]
      case Accepted(_, at) => before + [at]
      case Cleared(_) => before
  }

  /** When attempts of the clients that `same` selects were accepted, since the last clear of one of them. */
  function StampsOf<C>(history: seq<Attempt<C>>, same: C -> bool): seq<real> {
    if history == [] then []
    else
      var before := StampsOf(history[..|history| - 1], same);
      match history[|history| - 1]
      case Accepted(client, at) => if same(client) then before + [at] else before
      case Cleared(client) => if same(client) then [] else before
  }

  /** As long as nothing was accepted, nothing was accepted of anybody, whatever was cleared. */
  lemma {:induction false} NothingAccepted<C>(history: seq<Attempt<C>>, same: C -> bool)
    requires AllStamps(history) == []
    ensures StampsOf(history, same) == []
  {
    if history != [] {
      NothingAccepted(history[..|history| - 1], same);
    }
  }

  /** Pruning twice is pruning once, at the later cutoff. */
  lemma {:induction false} AfterAfter(stamps: seq<real>, early: real, late: real)
    requires early <= late
    ensures After(After(stamps, early), late) == After(stamps, late)
  {
    if stamps != [] {
      var n := |stamps| - 1;
      AfterAfter(stamps[..n], early, late);
      if stamps[n] > early {
        AfterAppends(After(stamps[..n], early), stamps[n], late);
      }
    }
  }

  lemma AfterAppends(stamps: seq<real>, stamp: real, cutoff: real)
    ensures After(stamps + [stamp], cutoff) == if stamp > cutoff then After(stamps, cutoff) + [stamp] else After(stamps, cutoff)
  {
    assert (stamps + [stamp])[..|stamps|] == stamps;
  }

  lemma HistoryAppends<C>(history: seq<Attempt<C>>, event: Attempt<C>, same: C -> bool)
    ensures AllStamps(history + [event]) ==
              if event.Accepted? then AllStamps(history) + [event.at] else AllStamps(history)
    ensures StampsOf(history + [event], same) ==
              if !same(event.client) then StampsOf(history, same)
              else if event.Accepted? then StampsOf(history, same) + [event.at] else []
  {
    assert (history + [event])[..|history|] == history;
  }

  // ---------- As many clients as stamps ----------

  /** Clients that are told apart by `key` and that each have a stamp in the window are not more than those stamps. */
  lemma {:induction false} NotMoreKeysThanStamps<C, K>(history: seq<Attempt<C>>, key: C -> K, keys: set<K>, cutoff: real)
    requires forall k :: k in keys ==> After(StampsOf(history, Selects(key, k)), cutoff) != []
    ensures |keys| <= |After(AllStamps(history), cutoff)|
  {
    if history == [] {
      forall k: K
        ensures After(StampsOf(history, Selects(key, k)), cutoff) == []
      {
      }
      assert keys == {};
    } else {
      var n := |history| - 1;
      var before, last := history[..n], key(history[n].client);
      var rest := keys - {last};
      forall k | k in rest
        ensures StampsOf(before, Selects(key, k)) == StampsOf(history, Selects(key, k))
      {
      }
      if history[n].Accepted? {
        AfterAppends(AllStamps(before), history[n].at, cutoff);
        AfterAppends(StampsOf(before, Selects(key, last)), history[n].at, cutoff);
        if history[n].at > cutoff {
          NotMoreKeysThanStamps(before, key, rest, cutoff);
          assert |keys| <= |rest| + 1;
        } else {
          NotMoreKeysThanStamps(before, key, keys, cutoff);
        }
      } else {
        assert StampsOf(history, Selects(key, last)) == [];
        assert rest == keys;
        NotMoreKeysThanStamps(before, key, rest, cutoff);
      }
    }
  }

  function Selects<C, K(==)>(key: C -> K, k: K): C -> bool {
    c => key(c) == k
  }

  /** A key that tells all clients apart selects exactly one client. */
  lemma {:induction false} InjectiveKey<C(!new), K>(history: seq<Attempt<C>>, key: C -> K, client: C)
    requires forall c :: key(c) == key(client) ==> c == client
    ensures StampsOf(history, Selects(key, key(client))) == StampsOf(history, (c: C) => c == client)
  {
    if history != [] {
      InjectiveKey(history[..|history| - 1], key, client);
    }
  }

  // ---------- What any window holds ----------

  ghost predicate InOrder(stamps: seq<real>) {
    forall i, j :: 0 <= i < j < |stamps| ==> stamps[i] <= stamps[j]
  }

  /** Every acceptance found fewer than `limit` stamps in the window before it. */
  ghost predicate Disciplined(stamps: seq<real>, window: real, limit: nat) {
    forall i :: 0 <= i < |stamps| ==> |After(stamps[..i], stamps[i] - window)| < limit
  }

  /** The stamps in the window that ends at `end`. */
  function Within(stamps: seq<real>, window: real, end: real): (held: seq<real>)
    ensures |held| <= |stamps|
  {
    if stamps == [] then []
    else
      var held := Within(stamps[..|stamps| - 1], window, end);
      var last := stamps[|stamps| - 1];
      if end - window < last <= end then held + [last] else held
  }

  lemma {:induction false} WithinIsAfter(stamps: seq<real>, window: real, end: real)
    ensures |Within(stamps, window, end)| <= |After(stamps, end - window)|
  {
    if stamps != [] {
      WithinIsAfter(stamps[..|stamps| - 1], window, end);
    }
  }

  lemma {:induction false} EarlierCutoffKeepsMore(stamps: seq<real>, early: real, late: real)
    requires early <= late
    ensures |After(stamps, late)| <= |After(stamps, early)|
  {
    if stamps != [] {
      EarlierCutoffKeepsMore(stamps[..|stamps| - 1], early, late);
    }
  }

  /** No window, wherever it ends, holds more than `limit` acceptances. */
  lemma {:induction false} NoWindowHoldsMore(stamps: seq<real>, window: real, limit: nat, end: real)
    requires Disciplined(stamps, window, limit) && limit > 0
    ensures |Within(stamps, window, end)| <= limit
  {
    if stamps != [] {
      var n := |stamps| - 1;
      var before, last := stamps[..n], stamps[n];
      if end - window < last <= end {
        assert |After(before, last - window)| < limit;
        WithinIsAfter(before, window, end);
        EarlierCutoffKeepsMore(before, last - window, end - window);
      } else {
        DisciplinedBefore(stamps, window, limit);
        NoWindowHoldsMore(before, window, limit, end);
      }
    }
  }

  lemma DisciplinedBefore(stamps: seq<real>, window: real, limit: nat)
    requires stamps != [] && Disciplined(stamps, window, limit)
    ensures Disciplined(stamps[..|stamps| - 1], window, limit)
  {
    hide After;
    var before := stamps[..|stamps| - 1];
    forall i | 0 <= i < |before|
      ensures |After(before[..i], before[i] - window)| < limit
    {
      assert before[..i] == stamps[..i] && before[i] == stamps[i];
    }
  }
}
