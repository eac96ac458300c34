/**
 * The bounded sliding-window limiter (control_plane/limiter.py).  It keeps pruned lists only; the
 * ghost history holds everything that ever happened, and the lists are what its window shows.
 */
module AttemptLimiter {
  import opened AttemptHistory

  const GLOBAL_ATTEMPT_MULTIPLIER: nat := 16

  type Digest = string

  datatype Record = Record(attempts: seq<real>, lastSeen: real)

  class LoginAttemptLimiter<C(!new)> {
    const attemptLimit: nat
    const window: real
    const maximumClients: nat
    const digest: C -> Digest
    var records: map<Digest, Record>
    var globalAttempts: seq<real>
    ghost var history: seq<Attempt<C>>
    /** The cutoff of the last pruning. */
    ghost var cutoff: real

    function GlobalLimit(): nat {
      attemptLimit * GLOBAL_ATTEMPT_MULTIPLIER
    }

    /** There is room for every client that can have attempts in the window. */
    predicate Roomy() {
      maximumClients >= GlobalLimit()
    }

    ghost function StampsFor(d: Digest): seq<real>
      reads this
    {
      After(StampsOf(history, Selects(digest, d)), cutoff)
    }

    /** The records are what the window shows of each client. */
    ghost predicate ShowWindow(shown: map<Digest, Record>, past: seq<Attempt<C>>, from: real) {
      && (forall d :: d in shown ==>
            shown[d].attempts == After(StampsOf(past, Selects(digest, d)), from) && shown[d].attempts != [])
      && (forall d :: d !in shown ==> After(StampsOf(past, Selects(digest, d)), from) == [])
    }

    ghost predicate Valid()
      reads this
    {
      && attemptLimit > 0 && window > 0.0 && maximumClients > 0
      && globalAttempts == After(AllStamps(history), cutoff)
      && Disciplined(AllStamps(history), window, GlobalLimit())
      && (Roomy() ==> ShowWindow(records, history, cutoff))
    }

    /** A reading that may come next: before the first acceptance any, afterwards none before the last one. */
    ghost predicate InTime(now: real)
      reads this
    {
      AllStamps(history) != [] ==> cutoff <= now - window
    }

    constructor (attemptLimit: nat, window: real, maximumClients: nat, digest: C -> Digest)
      requires attemptLimit > 0 && window > 0.0 && maximumClients > 0
      ensures Valid() && history == []
      ensures this.attemptLimit == attemptLimit && this.window == window
      ensures this.maximumClients == maximumClients && this.digest == digest
    {
      this.attemptLimit, this.window, this.maximumClients, this.digest := attemptLimit, window, maximumClients, digest;
      records, globalAttempts, history, cutoff := map[], [], [], 0.0;
    }

    /** Keeps the stamps after the cutoff. */
    method Prune(stamps: seq<real>, newCutoff: real) returns (kept: seq<real>)
      ensures kept == After(stamps, newCutoff)
    {
      kept := [];
      for i := 0 to |stamps|
        invariant kept == After(stamps[..i], newCutoff)
      {
        AfterAppends(stamps[..i], stamps[i], newCutoff);
        assert stamps[..i + 1] == stamps[..i] + [stamps[i]];
        if stamps[i] > newCutoff {
          kept := kept + [stamps[i]];
        }
      }
      assert stamps[..|stamps|] == stamps;
    }

    /** The records after pruning, without those that have become empty. */
    method PruneRecords(newCutoff: real) returns (kept: map<Digest, Record>)
      ensures IsPruned(records, kept, newCutoff)
    {
      hide After;
      var todo := records.Keys;
      kept := map[];
      while todo != {}
        invariant todo <= records.Keys && kept.Keys <= records.Keys - todo
        invariant forall d :: d in kept ==>
                    kept[d] == Record(After(records[d].attempts, newCutoff), records[d].lastSeen) && kept[d].attempts != []
        invariant forall d :: d in records && d !in todo && d !in kept ==> After(records[d].attempts, newCutoff) == []
        decreases |todo|
      {
        var d :| d in todo;
        todo := todo - {d};
        var attempts := Prune(records[d].attempts, newCutoff);
        if attempts != [] {
          kept := kept[d := Record(attempts, records[d].lastSeen)];
        }
      }
    }

    ghost predicate IsPruned(before: map<Digest, Record>, kept: map<Digest, Record>, newCutoff: real) {
      && kept.Keys <= before.Keys
      && (forall d :: d in kept ==>
            kept[d] == Record(After(before[d].attempts, newCutoff), before[d].lastSeen) && kept[d].attempts != [])
      && (forall d :: d in before && d !in kept ==> After(before[d].attempts, newCutoff) == [])
    }

    /** Prunes all lists and drops the records that have become empty. */
    method Cleanup(now: real)
      requires Valid() && InTime(now)
      modifies this`records, this`globalAttempts, this`cutoff
      ensures Valid() && cutoff == now - window
      ensures records.Keys <= old(records).Keys
    {
      hide After, StampsOf, AllStamps, Disciplined, Selects, ShowWindow;
      var newCutoff := now - window;
      var pruned := Prune(globalAttempts, newCutoff);
      var kept := PruneRecords(newCutoff);
      GlobalWindowMoves(newCutoff);
      if Roomy() {
        WindowMoves(kept, newCutoff);
      }
      globalAttempts, records, cutoff := pruned, kept, newCutoff;
    }

    lemma GlobalWindowMoves(newCutoff: real)
      requires Valid() && (AllStamps(history) != [] ==> cutoff <= newCutoff)
      ensures After(globalAttempts, newCutoff) == After(AllStamps(history), newCutoff)
    {
      hide StampsOf, Disciplined, Selects, ShowWindow, AllStamps;
      if AllStamps(history) != [] {
        AfterAfter(AllStamps(history), cutoff, newCutoff);
      }
    }

    /** What the moved window shows of a client is what pruning leaves of what it showed before. */
    lemma ClientWindowMoves(d: Digest, newCutoff: real)
      requires AllStamps(history) != [] ==> cutoff <= newCutoff
      ensures After(StampsFor(d), newCutoff) == After(StampsOf(history, Selects(digest, d)), newCutoff)
    {
      hide StampsOf, Disciplined, Selects, ShowWindow, AllStamps;
      if AllStamps(history) != [] {
        AfterAfter(StampsOf(history, Selects(digest, d)), cutoff, newCutoff);
      } else {
        NothingAccepted(history, Selects(digest, d));
      }
    }

    lemma WindowMoves(kept: map<Digest, Record>, newCutoff: real)
      requires Valid() && Roomy() && (AllStamps(history) != [] ==> cutoff <= newCutoff)
      requires IsPruned(records, kept, newCutoff)
      ensures ShowWindow(kept, history, newCutoff)
    {
      hide After, StampsOf, AllStamps, Disciplined, Selects;
      NothingToPrune(newCutoff);
      forall d: Digest
        ensures After(StampsFor(d), newCutoff) == After(StampsOf(history, Selects(digest, d)), newCutoff)
      {
        ClientWindowMoves(d, newCutoff);
      }
    }

    lemma NothingToPrune(newCutoff: real)
      ensures After([], newCutoff) == []
    {
    }

    /** While there is room for all, there is room for one more: eviction is never needed. */
    lemma EvictionIsUnreachable()
      requires Valid() && Roomy() && |globalAttempts| < GlobalLimit()
      ensures |records| < maximumClients
    {
      NotMoreKeysThanStamps(history, digest, records.Keys, cutoff);
    }

    /** The record that was seen longest ago makes room for a new one. */
    method EvictOldest()
      requires records != map[]
      modifies this`records
      ensures exists d :: d in old(records) && records == old(records) - {d}
                && forall other :: other in old(records) ==> old(records)[d].lastSeen <= old(records)[other].lastSeen
    {
      var oldest :| oldest in records;
      var todo := records.Keys - {oldest};
      while todo != {}
        invariant oldest in records && todo <= records.Keys
        invariant forall d :: d in records && d !in todo ==> records[oldest].lastSeen <= records[d].lastSeen
        decreases |todo|
      {
        var d :| d in todo;
        todo := todo - {d};
        if records[d].lastSeen < records[oldest].lastSeen {
          oldest := d;
        }
      }
      records := records - {oldest};
    }

    /** Pruning what is kept of a client, or nothing, leaves what the window shows. */
    lemma SeenAgain(d: Digest)
      requires Valid() && Roomy()
      ensures After(if d in records then records[d].attempts else [], cutoff) == StampsFor(d)
    {
      hide StampsOf, AllStamps, Disciplined, Selects;
      AfterAfter(StampsOf(history, Selects(digest, d)), cutoff, cutoff);
    }

    lemma OneRecordSeen(d: Digest, record: Record)
      requires Valid() && Roomy() && record.attempts == StampsFor(d)
      ensures ShowOthers(records[d := record], history, cutoff, d)
      ensures record.attempts != [] ==> ShowWindow(records[d := record], history, cutoff)
    {
      hide After, StampsOf, AllStamps, Disciplined, Selects;
    }

    /** Right after a cleanup the kept lists count what the full history says. */
    lemma KeptListsCount(client: C, now: real)
      requires Valid() && cutoff == now - window
      ensures Admissible(history, client, now) <==>
                |globalAttempts| < GlobalLimit() && |StampsFor(digest(client))| < attemptLimit
    {
      hide After, StampsOf, AllStamps, Disciplined, Selects, ShowWindow;
    }

    /** The pruned attempts of one client, whose record is made first if there is none. */
    method SeeClient(d: Digest, now: real) returns (attempts: seq<real>)
      requires Valid() && cutoff == now - window && |globalAttempts| < GlobalLimit()
      modifies this`records
      ensures d in records && records[d] == Record(attempts, now)
      ensures Roomy() ==> attempts == StampsFor(d) && records == old(records)[d := Record(attempts, now)]
      ensures Roomy() ==> ShowOthers(records, history, cutoff, d)
      ensures Roomy() && attempts != [] ==> ShowWindow(records, history, cutoff)
    {
      hide After, StampsOf, AllStamps, Disciplined, Selects, ShowWindow, ShowOthers;
      if Roomy() {
        EvictionIsUnreachable();
        SeenAgain(d);
        OneRecordSeen(d, Record(StampsFor(d), now));
      }
      if d !in records {
        if |records| >= maximumClients {
          EvictOldest();
        }
        records := records[d := Record([], now)];
      }
      attempts := Prune(records[d].attempts, now - window);
      records := records[d := Record(attempts, now)];
    }

    /** What the full history says about this attempt. */
    ghost predicate Admissible(past: seq<Attempt<C>>, client: C, now: real) {
      && |After(AllStamps(past), now - window)| < GlobalLimit()
      && |After(StampsOf(past, Selects(digest, digest(client))), now - window)| < attemptLimit
    }

    /**
     * Reserves an attempt or refuses it.  With room for all clients the answer is exactly what the
     * full history says, although only pruned lists are kept.
     */
    method BeginAttempt(client: C, now: real) returns (accepted: bool)
      requires Valid() && InTime(now)
      modifies this
      ensures Valid() && cutoff == now - window
      ensures history == if accepted then old(history) + [Accepted(client, now)] else old(history)
      ensures accepted ==> |After(AllStamps(old(history)), now - window)| < GlobalLimit()
      ensures Roomy() ==> (accepted <==> Admissible(old(history), client, now))
    {
      hide After, StampsOf, AllStamps, Disciplined, Selects, ShowWindow, ShowOthers, Admissible, Roomy;
      var d := digest(client);
      Cleanup(now);
      KeptListsCount(client, now);
      if |globalAttempts| >= GlobalLimit() {
        return false;
      }
      var attempts := SeeClient(d, now);
      if |attempts| >= attemptLimit {
        return false;
      }
      Reserve(client, now, attempts);
      return true;
    }

    lemma AcceptanceIsDisciplined(client: C, now: real)
      requires Disciplined(AllStamps(history), window, GlobalLimit())
      requires |After(AllStamps(history), now - window)| < GlobalLimit()
      ensures Disciplined(AllStamps(history + [Accepted(client, now)]), window, GlobalLimit())
    {
      HistoryAppends(history, Accepted(client, now), Selects(digest, digest(client)));
      var before, after := AllStamps(history), AllStamps(history + [Accepted(client, now)]);
      hide After, AllStamps, StampsOf;
      forall i | 0 <= i < |after|
        ensures |After(after[..i], after[i] - window)| < GlobalLimit()
      {
        if i < |before| {
          assert after[..i] == before[..i] && after[i] == before[i];
        } else {
          assert after[..i] == before && after[i] == now;
        }
      }
    }

    /** An acceptance adds its stamp to the window of everybody and of its own client. */
    lemma AcceptanceShows(client: C, now: real)
      requires window > 0.0 && cutoff == now - window
      ensures After(AllStamps(history + [Accepted(client, now)]), cutoff) == After(AllStamps(history), cutoff) + [now]
      ensures After(StampsOf(history + [Accepted(client, now)], Selects(digest, digest(client))), cutoff) ==
                StampsFor(digest(client)) + [now]
    {
      HistoryAppends(history, Accepted(client, now), Selects(digest, digest(client)));
      AfterAppends(AllStamps(history), now, cutoff);
      AfterAppends(StampsOf(history, Selects(digest, digest(client))), now, cutoff);
      hide After, StampsOf, AllStamps;
    }

    /** Other clients do not notice. */
    lemma OthersKeepStamps(event: Attempt<C>)
      ensures forall d :: d != digest(event.client) ==>
                StampsOf(history + [event], Selects(digest, d)) == StampsOf(history, Selects(digest, d))
    {
      hide StampsOf;
      forall d | d != digest(event.client)
        ensures StampsOf(history + [event], Selects(digest, d)) == StampsOf(history, Selects(digest, d))
      {
        HistoryAppends(history, event, Selects(digest, d));
      }
    }

    /** Reserves the attempt of a client whose record was just seen. */
    method Reserve(client: C, now: real, attempts: seq<real>)
      requires attemptLimit > 0 && window > 0.0 && maximumClients > 0 && cutoff == now - window
      requires globalAttempts == After(AllStamps(history), cutoff) && |globalAttempts| < GlobalLimit()
      requires Disciplined(AllStamps(history), window, GlobalLimit())
      requires Roomy() ==> attempts == StampsFor(digest(client))
      requires Roomy() ==> ShowOthers(records, history, cutoff, digest(client))
      modifies this`records, this`globalAttempts, this`history
      ensures Valid() && history == old(history) + [Accepted(client, now)]
    {
      AcceptanceIsDisciplined(client, now);
      AcceptanceShows(client, now);
      OthersKeepStamps(Accepted(client, now));
      hide After, StampsOf, AllStamps, Disciplined, Selects, ShowWindow, ShowOthers;
      var record := Record(attempts + [now], now);
      if Roomy() {
        OneRecordChanges(records, history, history + [Accepted(client, now)], cutoff, digest(client), record);
      }
      records := records[digest(client) := record];
      globalAttempts := globalAttempts + [now];
      history := history + [Accepted(client, now)];
    }

    /** Apart from this client's, the records are what the window shows. */
    ghost predicate ShowOthers(shown: map<Digest, Record>, past: seq<Attempt<C>>, from: real, d: Digest) {
      && (forall other :: other in shown && other != d ==>
            shown[other].attempts == After(StampsOf(past, Selects(digest, other)), from) && shown[other].attempts != [])
      && (forall other :: other !in shown && other != d ==> After(StampsOf(past, Selects(digest, other)), from) == [])
    }

    lemma OneRecordChanges(
      shown: map<Digest, Record>, past: seq<Attempt<C>>, next: seq<Attempt<C>>, from: real, d: Digest, record: Record)
      requires ShowOthers(shown, past, from, d)
      requires forall other :: other != d ==> StampsOf(next, Selects(digest, other)) == StampsOf(past, Selects(digest, other))
      requires record.attempts != [] && record.attempts == After(StampsOf(next, Selects(digest, d)), from)
      ensures ShowWindow(shown[d := record], next, from)
    {
      hide After, StampsOf, Selects;
    }

    /** Forgets the attempts of one client; they still count for everybody together. */
    method Clear(client: C)
      requires Valid()
      modifies this
      ensures Valid() && cutoff == old(cutoff)
      ensures history == old(history) + [Cleared(client)]
    {
      ClearShows(client);
      OthersKeepStamps(Cleared(client));
      hide After, StampsOf, AllStamps, Disciplined, Selects;
      records := records - {digest(client)};
      history := history + [Cleared(client)];
    }

    lemma ClearShows(client: C)
      ensures AllStamps(history + [Cleared(client)]) == AllStamps(history)
      ensures forall from :: After(StampsOf(history + [Cleared(client)], Selects(digest, digest(client))), from) == []
    {
      HistoryAppends(history, Cleared(client), Selects(digest, digest(client)));
    }

    /** With digests that tell clients apart, an attempt is judged by its own client's history alone. */
    lemma JudgedByOwnHistory(past: seq<Attempt<C>>, client: C, now: real)
      requires forall c :: digest(c) == digest(client) ==> c == client
      ensures Admissible(past, client, now) <==>
                && |After(AllStamps(past), now - window)| < GlobalLimit()
                && |After(StampsOf(past, (c: C) => c == client), now - window)| < attemptLimit
    {
      InjectiveKey(past, digest, client);
    }

    /** For all parameters, no window of this length ever holds more acceptances than the global limit. */
    lemma GlobalLimitHolds(end: real)
      requires Valid()
      ensures |Within(AllStamps(history), window, end)| <= GlobalLimit()
    {
      NoWindowHoldsMore(AllStamps(history), window, GlobalLimit(), end);
    }
  }

  /** With an empty history nothing counts. */
  lemma NothingCounts<C>(same: C -> bool, cutoff: real)
    ensures AllStamps<C>([]) == []
    ensures After(AllStamps<C>([]), cutoff) == [] && After(StampsOf([], same), cutoff) == []
  {
  }

  /** After one acceptance it counts, for its own client and in all, until the window has passed it. */
  lemma OneCounts<C>(client: C, same: C -> bool, at: real, cutoff: real)
    requires same(client)
    ensures var counted := if at > cutoff then [at] else [];
            After(AllStamps([Accepted(client, at)]), cutoff) == counted && After(StampsOf([Accepted(client, at)], same), cutoff) == counted
  {
    HistoryAppends([], Accepted(client, at), same);
    assert [] + [Accepted(client, at)] == [Accepted(client, at)];
    AfterAppends([], at, cutoff);
  }

  /** A clear on a new limiter does not stand in the way of the first attempt, whatever the clock shows. */
  method FirstAttemptAfterClear<C(!new)>(
    attemptLimit: nat, window: real, maximumClients: nat, digest: C -> Digest, cleared: C, client: C, now: real)
    returns (accepted: bool)
    requires attemptLimit > 0 && window > 0.0 && maximumClients >= attemptLimit * GLOBAL_ATTEMPT_MULTIPLIER
    ensures accepted
  {
    hide After, AllStamps, StampsOf, Disciplined;
    var limiter := new LoginAttemptLimiter(attemptLimit, window, maximumClients, digest);
    limiter.Clear(cleared);
    ClearingCounts(cleared, Selects(digest, digest(client)), now - window);
    assert limiter.history == [Cleared(cleared)];
    accepted := limiter.BeginAttempt(client, now);
  }

  lemma ClearingCounts<C>(cleared: C, same: C -> bool, cutoff: real)
    ensures AllStamps([Cleared(cleared)]) == [] && After(AllStamps([Cleared(cleared)]), cutoff) == []
    ensures After(StampsOf([Cleared(cleared)], same), cutoff) == []
  {
    HistoryAppends([], Cleared(cleared), same);
    assert [] + [Cleared(cleared)] == [Cleared(cleared)];
  }

  /**
   * The first two attempts of one client on a new limiter, whatever its clock shows first: the
   * first is accepted, the second exactly if the limit allows two or the window has passed the first.
   */
  method FirstTwoAttempts<C(!new)>(
    attemptLimit: nat, window: real, maximumClients: nat, digest: C -> Digest, client: C, now: real, later: real)
    returns (first: bool, second: bool)
    requires attemptLimit > 0 && window > 0.0 && maximumClients >= attemptLimit * GLOBAL_ATTEMPT_MULTIPLIER
    requires now <= later
    ensures first
    ensures second <==> attemptLimit >= 2 || later - now >= window
  {
    hide After, AllStamps, StampsOf, Disciplined;
    var limiter := new LoginAttemptLimiter(attemptLimit, window, maximumClients, digest);
    NothingCounts(Selects(digest, digest(client)), now - window);
    first := limiter.BeginAttempt(client, now);
    assert limiter.history == [Accepted(client, now)];
    OneCounts(client, Selects(digest, digest(client)), now, later - window);
    second := limiter.BeginAttempt(client, later);
  }
}
