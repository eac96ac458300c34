/**
 * Where the answers of the health cache come from (dashboard/service.py), told by the actions of the run alone:
 * every answer was collected during its call or stored recently, the collectors are only swept when there is no
 * recent report, and no call keeps the lock for good.
 */
module HealthAnswers {
  import opened Wrappers
  import opened HealthCache

  // ---------- What the actions say ----------

  predicate CalledBy(actions: seq<Action>, calledAt: nat, i: ThreadId) {
    calledAt < |actions| && actions[calledAt] == Call(i)
  }

  /** The thread took the lock during its call, and its clock showed this. */
  ghost predicate ReadClock(actions: seq<Action>, calledAt: nat, i: ThreadId, now: real) {
    exists m :: calledAt < m < |actions| && actions[m] == TakeLock(i, now)
  }

  /** The report was collected by the call itself. */
  predicate Own(actions: seq<Action>, calledAt: nat, i: ThreadId, report: Report) {
    calledAt < report.beganAt < |actions| && actions[report.beganAt] == BeginCollection(i)
  }

  /** With the action at this index a thread stored this report. */
  predicate StoresAt(refresh: real, actions: seq<Action>, j: nat, report: Report) {
    && j < |actions| && actions[j].StoreReport?
    && var place := Run(refresh, actions[..j]).At(actions[j].i);
       place.Collected? && place.report == report
  }

  /** The report was stored when the clock showed this. */
  ghost predicate Stored(refresh: real, actions: seq<Action>, report: Report, at: real) {
    exists j: nat :: StoresAt(refresh, actions, j, report) && actions[j].now == at
  }

  /** When the call took the lock, the report had been stored for less than the refresh time. */
  ghost predicate Recent(refresh: real, actions: seq<Action>, calledAt: nat, i: ThreadId, report: Report) {
    exists now, at :: ReadClock(actions, calledAt, i, now) && Stored(refresh, actions, report, at) && now - at < refresh
  }

  ghost predicate Accounted(refresh: real, actions: seq<Action>, calledAt: nat, i: ThreadId, report: Report) {
    CalledBy(actions, calledAt, i) && (Own(actions, calledAt, i, report) || Recent(refresh, actions, calledAt, i, report))
  }

  // ---------- The invariant ----------

  ghost predicate PlaceTold(refresh: real, actions: seq<Action>, i: ThreadId, place: Place) {
    match place
    case Outside => true
    case Called(calledAt) => CalledBy(actions, calledAt, i)
    case Holding(calledAt, now) => CalledBy(actions, calledAt, i) && ReadClock(actions, calledAt, i, now)
    case Noted(calledAt, look) => CalledBy(actions, calledAt, i) && ReadClock(actions, calledAt, i, look.now)
    case Collecting(calledAt, look, report) =>
      CalledBy(actions, calledAt, i) && ReadClock(actions, calledAt, i, look.now) && Own(actions, calledAt, i, report)
    case Collected(calledAt, look, report) =>
      CalledBy(actions, calledAt, i) && ReadClock(actions, calledAt, i, look.now) && Own(actions, calledAt, i, report)
    case Answering(calledAt, answer) =>
      CalledBy(actions, calledAt, i) && (answer.Some? ==> Accounted(refresh, actions, calledAt, i, answer.value))
  }

  /** A thread that found no recent report still finds none; what is cached was there before the thread looked. */
  predicate StillStale(cached: Option<(Report, real)>, generation: nat, place: Place, refresh: real) {
    place.Noted? || place.Collecting? || place.Collected? ==>
      cached.Some? ==> place.look.now - cached.value.1 >= refresh && place.look.generation == generation
  }

  ghost predicate AnswersTold(refresh: real, actions: seq<Action>, answers: seq<Answer>) {
    forall k :: 0 <= k < |answers| ==> AnswerTold(refresh, actions, answers[k])
  }

  ghost predicate AnswerTold(refresh: real, actions: seq<Action>, answer: Answer) {
    exists i :: Accounted(refresh, actions, answer.calledAt, i, answer.report)
  }

  ghost predicate Told(refresh: real, actions: seq<Action>, s: State) {
    && (forall i :: PlaceTold(refresh, actions, i, s.At(i)))
    && (s.cached.Some? ==> Stored(refresh, actions, s.cached.value.0, s.cached.value.1))
    && AnswersTold(refresh, actions, s.answers)
  }

  ghost predicate LockHeld(refresh: real, s: State) {
    && (forall i :: InSection(s.At(i)) <==> s.holder == Some(i))
    && (forall i :: StillStale(s.cached, s.generation, s.At(i), refresh))
  }

  // ---------- One more action ----------

  lemma StoredStays(refresh: real, actions: seq<Action>, a: Action, report: Report, at: real)
    requires Stored(refresh, actions, report, at)
    ensures Stored(refresh, actions + [a], report, at)
  {
    hide Run;
    var j: nat :| StoresAt(refresh, actions, j, report) && actions[j].now == at;
    assert (actions + [a])[..j] == actions[..j];
    assert StoresAt(refresh, actions + [a], j, report);
  }

  lemma ClockStays(actions: seq<Action>, a: Action, calledAt: nat, i: ThreadId, now: real)
    requires ReadClock(actions, calledAt, i, now)
    ensures ReadClock(actions + [a], calledAt, i, now)
  {
    var m :| calledAt < m < |actions| && actions[m] == TakeLock(i, now);
    assert (actions + [a])[m] == TakeLock(i, now);
  }

  lemma AccountedStays(refresh: real, actions: seq<Action>, a: Action, calledAt: nat, i: ThreadId, report: Report)
    requires Accounted(refresh, actions, calledAt, i, report)
    ensures Accounted(refresh, actions + [a], calledAt, i, report)
  {
    hide ReadClock, Stored;
    if Recent(refresh, actions, calledAt, i, report) {
      var now, at :| ReadClock(actions, calledAt, i, now) && Stored(refresh, actions, report, at) && now - at < refresh;
      ClockStays(actions, a, calledAt, i, now);
      StoredStays(refresh, actions, a, report, at);
    }
  }

  lemma PlaceStaysTold(refresh: real, actions: seq<Action>, a: Action, i: ThreadId, place: Place)
    requires PlaceTold(refresh, actions, i, place)
    ensures PlaceTold(refresh, actions + [a], i, place)
  {
    hide ReadClock, Accounted;
    match place {
      case Outside =>
      case Called(_) =>
      case Holding(calledAt, now) => ClockStays(actions, a, calledAt, i, now);
      case Noted(calledAt, look) => ClockStays(actions, a, calledAt, i, look.now);
      case Collecting(calledAt, look, _) => ClockStays(actions, a, calledAt, i, look.now);
      case Collected(calledAt, look, _) => ClockStays(actions, a, calledAt, i, look.now);
      case Answering(calledAt, answer) =>
        if answer.Some? {
          AccountedStays(refresh, actions, a, calledAt, i, answer.value);
        }
    }
  }

  /** A recent report that is answered from the cache is accounted for. */
  lemma CachedIsAccounted(refresh: real, actions: seq<Action>, calledAt: nat, i: ThreadId, now: real, report: Report, at: real)
    requires CalledBy(actions, calledAt, i) && ReadClock(actions, calledAt, i, now)
    requires Stored(refresh, actions, report, at) && now - at < refresh
    ensures Accounted(refresh, actions, calledAt, i, report)
  {
    hide ReadClock, Stored;
  }

  lemma TakesNow(actions: seq<Action>, a: Action, calledAt: nat)
    requires a.TakeLock? && calledAt < |actions|
    ensures ReadClock(actions + [a], calledAt, a.i, a.now)
  {
    assert (actions + [a])[|actions|] == a;
  }

  /** The acting thread's new place is told by the actions. */
  lemma ActorIsTold(refresh: real, actions: seq<Action>, a: Action, s: State)
    requires Told(refresh, actions, s) && !a.Invalidate?
    ensures PlaceTold(refresh, actions + [a], a.i, Step(s, refresh, a, |actions|).At(a.i))
  {
    hide ReadClock, Stored, Recent, AnswersTold;
    var place := s.At(a.i);
    assert PlaceTold(refresh, actions, a.i, place);
    PlaceStaysTold(refresh, actions, a, a.i, place);
    if a.TakeLock? && place.Called? {
      TakesNow(actions, a, place.calledAt);
    }
    if a.LookAtCache? && place.Holding? && s.cached.Some? && place.now - s.cached.value.1 < refresh {
      CachedIsAccounted(refresh, actions, place.calledAt, a.i, place.now, s.cached.value.0, s.cached.value.1);
      AccountedStays(refresh, actions, a, place.calledAt, a.i, s.cached.value.0);
    }
  }

  lemma PlacesStayTold(refresh: real, actions: seq<Action>, a: Action, s: State)
    requires Told(refresh, actions, s)
    ensures forall i :: PlaceTold(refresh, actions + [a], i, Step(s, refresh, a, |actions|).At(i))
  {
    hide PlaceTold, Stored, AnswersTold;
    var next := Step(s, refresh, a, |actions|);
    if !a.Invalidate? {
      ActorIsTold(refresh, actions, a, s);
    }
    forall i
      ensures PlaceTold(refresh, actions + [a], i, next.At(i))
    {
      PlaceStaysTold(refresh, actions, a, i, s.At(i));
      assert a.Invalidate? || i != a.i ==> next.At(i) == s.At(i);
    }
  }

  /** What is cached was stored by some action: the one just taken, or an earlier one. */
  lemma CacheStaysTold(refresh: real, actions: seq<Action>, a: Action)
    requires Told(refresh, actions, Run(refresh, actions))
    ensures var next := Step(Run(refresh, actions), refresh, a, |actions|);
            next.cached.Some? ==> Stored(refresh, actions + [a], next.cached.value.0, next.cached.value.1)
  {
    hide PlaceTold, Stored, AnswersTold, Run;
    var s := Run(refresh, actions);
    if a.StoreReport? && s.At(a.i).Collected? {
      StoresNow(refresh, actions, a);
    }
    if s.cached.Some? {
      StoredStays(refresh, actions, a, s.cached.value.0, s.cached.value.1);
    }
  }

  lemma StoresNow(refresh: real, actions: seq<Action>, a: Action)
    requires a.StoreReport? && Run(refresh, actions).At(a.i).Collected?
    ensures Stored(refresh, actions + [a], Run(refresh, actions).At(a.i).report, a.now)
  {
    hide Run;
    assert (actions + [a])[..|actions|] == actions;
    assert StoresAt(refresh, actions + [a], |actions|, Run(refresh, actions).At(a.i).report);
  }

  lemma AnswersStayTold(refresh: real, actions: seq<Action>, a: Action, s: State)
    requires Told(refresh, actions, s)
    ensures AnswersTold(refresh, actions + [a], Step(s, refresh, a, |actions|).answers)
  {
    hide Accounted, Stored, ReadClock;
    var next := Step(s, refresh, a, |actions|);
    if !a.Invalidate? {
      assert PlaceTold(refresh, actions, a.i, s.At(a.i));
    }
    forall k | 0 <= k < |next.answers|
      ensures AnswerTold(refresh, actions + [a], next.answers[k])
    {
      var i :| Accounted(refresh, actions, next.answers[k].calledAt, i, next.answers[k].report);
      AccountedStays(refresh, actions, a, next.answers[k].calledAt, i, next.answers[k].report);
    }
  }

  lemma StepKeepsLock(refresh: real, s: State, a: Action, n: nat)
    requires LockHeld(refresh, s)
    ensures LockHeld(refresh, Step(s, refresh, a, n))
  {
    var next := Step(s, refresh, a, n);
    if !a.Invalidate? {
      assert InSection(s.At(a.i)) <==> s.holder == Some(a.i);
      assert forall i :: i != a.i ==> next.At(i) == s.At(i);
    }
    forall i
      ensures InSection(next.At(i)) <==> next.holder == Some(i)
      ensures StillStale(next.cached, next.generation, next.At(i), refresh)
    {
      assert InSection(s.At(i)) <==> s.holder == Some(i);
      assert StillStale(s.cached, s.generation, s.At(i), refresh);
    }
  }

  lemma {:induction false} RunIsTold(refresh: real, actions: seq<Action>)
    ensures Told(refresh, actions, Run(refresh, actions)) && LockHeld(refresh, Run(refresh, actions))
  {
    hide PlaceTold, Stored, AnswerTold, LockHeld, Step;
    if actions == [] {
      NothingIsHeld(refresh);
    } else {
      var before, a := actions[..|actions| - 1], actions[|actions| - 1];
      RunIsTold(refresh, before);
      PlacesStayTold(refresh, before, a, Run(refresh, before));
      CacheStaysTold(refresh, before, a);
      AnswersStayTold(refresh, before, a, Run(refresh, before));
      StepKeepsLock(refresh, Run(refresh, before), a, |before|);
      assert before + [a] == actions;
    }
  }

  lemma NothingIsHeld(refresh: real)
    ensures LockHeld(refresh, START)
    ensures forall i :: PlaceTold(refresh, [], i, START.At(i))
  {
  }

  // ---------- The theorems ----------

  /**
   * Every answer was collected by its own call, or had been stored for less than the refresh time when the call
   * took the lock.
   */
  lemma AnswersAreOwnOrRecent(refresh: real, actions: seq<Action>, k: nat)
    requires k < |Run(refresh, actions).answers|
    ensures var answer := Run(refresh, actions).answers[k];
            exists i :: Accounted(refresh, actions, answer.calledAt, i, answer.report)
  {
    RunIsTold(refresh, actions);
    hide Run, Accounted;
    assert AnswerTold(refresh, actions, Run(refresh, actions).answers[k]);
  }

  /** The collectors are swept only while there is no cached report, or one that is due. */
  lemma SweepsOnlyWhenDue(refresh: real, actions: seq<Action>, i: ThreadId)
    requires Run(refresh, actions).At(i).Collecting?
    ensures var s := Run(refresh, actions);
            s.cached.None? || s.At(i).look.now - s.cached.value.1 >= refresh
  {
    RunIsTold(refresh, actions);
    hide Run;
    var s := Run(refresh, actions);
    assert StillStale(s.cached, s.generation, s.At(i), refresh);
  }

  /** A report is cached exactly if there was no invalidation since its call had looked at the cache. */
  lemma StoredUnlessInvalidated(refresh: real, actions: seq<Action>, i: ThreadId, now: real)
    requires Run(refresh, actions).At(i).Collected?
    ensures var s := Run(refresh, actions);
            var next := Run(refresh, actions + [StoreReport(i, now)]);
            && s.At(i).look.at < |actions|
            && next.cached ==
                 if forall j :: s.At(i).look.at <= j < |actions| ==> !actions[j].Invalidate? then Some((s.At(i).report, now)) else None
  {
    hide Ok, PlaceOk, Told, LockHeld, StillStale, Step;
    RunIsTold(refresh, actions);
    RunIsOk(refresh, actions);
    assert (actions + [StoreReport(i, now)])[..|actions|] == actions;
    var s := Run(refresh, actions);
    LooksOk(s, actions, i);
    LooksStale(s, i, refresh);
    StoredInStep(s, refresh, i, now, |actions|);
    InvalidatedSince(actions, s.At(i).look.at);
  }

  lemma LooksOk(s: State, actions: seq<Action>, i: ThreadId)
    requires Ok(s, actions) && s.At(i).Collected?
    ensures s.At(i).look.at < |actions| && s.At(i).look.generation == Invalidations(actions, s.At(i).look.at)
    ensures s.generation == Invalidations(actions, |actions|)
  {
    hide Invalidations, Genuine;
    assert PlaceOk(actions, s.At(i));
  }

  lemma LooksStale(s: State, i: ThreadId, refresh: real)
    requires LockHeld(refresh, s) && s.At(i).Collected?
    ensures s.cached.Some? ==> s.At(i).look.generation == s.generation
  {
    assert StillStale(s.cached, s.generation, s.At(i), refresh);
  }

  lemma StoredInStep(s: State, refresh: real, i: ThreadId, now: real, n: nat)
    requires s.At(i).Collected?
    ensures Step(s, refresh, StoreReport(i, now), n).cached ==
              if s.At(i).look.generation == s.generation then Some((s.At(i).report, now)) else s.cached
  {
  }

  lemma InvalidatedSince(actions: seq<Action>, m: nat)
    requires m <= |actions|
    ensures Invalidations(actions, m) == Invalidations(actions, |actions|) <==>
              forall j :: m <= j < |actions| ==> !actions[j].Invalidate?
  {
    hide Invalidations;
    InvalidationsGrow(actions, m, |actions|);
    if forall j :: m <= j < |actions| ==> !actions[j].Invalidate? {
      NoneInBetween(actions, m, |actions|);
    }
  }

  lemma {:induction false} NoneInBetween(actions: seq<Action>, m: nat, n: nat)
    requires m <= n <= |actions|
    requires forall j :: m <= j < n ==> !actions[j].Invalidate?
    ensures Invalidations(actions, m) == Invalidations(actions, n)
  {
    if m < n {
      NoneInBetween(actions, m, n - 1);
    }
  }

  // ---------- Calls end ----------

  /** The state after further actions, the first of which has index `n`. */
  function Onward(refresh: real, s: State, n: nat, more: seq<Action>): State
    decreases |more|
  {
    if more == [] then s else Onward(refresh, Step(s, refresh, more[0], n), n + 1, more[1..])
  }

  lemma {:induction false} RunsOnward(refresh: real, actions: seq<Action>, more: seq<Action>)
    ensures Run(refresh, actions + more) == Onward(refresh, Run(refresh, actions), |actions|, more)
    decreases |more|
  {
    hide Step;
    if more == [] {
      assert actions + more == actions;
    } else {
      var next := actions + [more[0]];
      assert next[..|actions|] == actions;
      assert actions + more == next + more[1..];
      RunsOnward(refresh, next, more[1..]);
    }
  }

  /** An uninterrupted call that finds a recent report answers with it and collects nothing. */
  lemma HitAnswersFromCache(refresh: real, actions: seq<Action>, i: ThreadId, now: real)
    requires var s := Run(refresh, actions);
             && s.At(i).Called? && s.holder.None?
             && s.cached.Some? && now - s.cached.value.1 < refresh
    ensures var s := Run(refresh, actions);
            var after := Run(refresh, actions + [TakeLock(i, now), LookAtCache(i), Return(i)]);
            && after.answers == s.answers + [Answer(s.At(i).calledAt, s.cached.value.0)]
            && after.cached == s.cached && after.generation == s.generation
            && after.holder.None? && after.At(i).Outside?
  {
    hide Run;
    var more := [TakeLock(i, now), LookAtCache(i), Return(i)];
    RunsOnward(refresh, actions, more);
    var s, n := Run(refresh, actions), |actions|;
    var taken := Step(s, refresh, more[0], n);
    var looked := Step(taken, refresh, more[1], n + 1);
    assert more[1..] == [LookAtCache(i), Return(i)] && more[1..][1..] == [Return(i)] && [Return(i)][1..] == [];
    assert Onward(refresh, looked, n + 2, [Return(i)]) == Step(looked, refresh, Return(i), n + 2);
  }

  /** The first actions of a call that finds no recent report. */
  function Collects(i: ThreadId, now: real): seq<Action> {
    [TakeLock(i, now), LookAtCache(i), BeginCollection(i)]
  }

  lemma MissBegins(refresh: real, actions: seq<Action>, i: ThreadId, now: real)
    requires var s := Run(refresh, actions);
             && s.At(i).Called? && s.holder.None?
             && (s.cached.Some? ==> now - s.cached.value.1 >= refresh)
    ensures var s, n := Run(refresh, actions), |actions|;
            var after := Run(refresh, actions + Collects(i, now));
            && after.At(i) == Collecting(s.At(i).calledAt, Look(n + 1, now, s.generation), Report(n + 2))
            && after.answers == s.answers && after.cached == s.cached && after.generation == s.generation
            && after.holder == Some(i)
  {
    hide Run;
    var more := Collects(i, now);
    RunsOnward(refresh, actions, more);
    var s, n := Run(refresh, actions), |actions|;
    var taken := Step(s, refresh, more[0], n);
    var looked := Step(taken, refresh, more[1], n + 1);
    assert more[1..] == [LookAtCache(i), BeginCollection(i)] && more[1..][1..] == [BeginCollection(i)];
    assert [BeginCollection(i)][1..] == [];
    assert Onward(refresh, looked, n + 2, [BeginCollection(i)]) == Step(looked, refresh, BeginCollection(i), n + 2);
  }

  /** Any other uninterrupted call sweeps the collectors, answers with what they report, and caches that. */
  lemma MissCollectsAnew(refresh: real, actions: seq<Action>, i: ThreadId, now: real, later: real)
    requires var s := Run(refresh, actions);
             && s.At(i).Called? && s.holder.None?
             && (s.cached.Some? ==> now - s.cached.value.1 >= refresh)
    ensures var s, report := Run(refresh, actions), Report(|actions| + 2);
            var after := Run(refresh, actions + Collects(i, now) + [EndCollection(i), StoreReport(i, later), Return(i)]);
            && after.answers == s.answers + [Answer(s.At(i).calledAt, report)]
            && after.cached == Some((report, later)) && after.generation == s.generation
            && after.holder.None? && after.At(i).Outside?
  {
    hide Run;
    MissBegins(refresh, actions, i, now);
    var begun, n := Run(refresh, actions + Collects(i, now)), |actions + Collects(i, now)|;
    var more := [EndCollection(i), StoreReport(i, later), Return(i)];
    RunsOnward(refresh, actions + Collects(i, now), more);
    var ended := Step(begun, refresh, more[0], n);
    var stored := Step(ended, refresh, more[1], n + 1);
    assert more[1..] == [StoreReport(i, later), Return(i)] && more[1..][1..] == [Return(i)] && [Return(i)][1..] == [];
    assert Onward(refresh, stored, n + 2, [Return(i)]) == Step(stored, refresh, Return(i), n + 2);
  }

  /** Collectors that fail leave no answer, and the cache as it was. */
  lemma FailureIsNotCached(refresh: real, actions: seq<Action>, i: ThreadId)
    requires Run(refresh, actions).At(i).Collecting?
    ensures var s, after := Run(refresh, actions), Run(refresh, actions + [FailCollection(i), Return(i)]);
            after == s.(places := after.places, holder := None) && after.At(i).Outside?
  {
    hide Run;
    RunsOnward(refresh, actions, [FailCollection(i), Return(i)]);
    var failed := Step(Run(refresh, actions), refresh, FailCollection(i), |actions|);
    assert [FailCollection(i), Return(i)][1..] == [Return(i)] && [Return(i)][1..] == [];
    assert Onward(refresh, failed, |actions| + 1, [Return(i)]) == Step(failed, refresh, Return(i), |actions| + 1);
  }

  /** The actions by which a thread in the section ends its call, whatever the cache holds. */
  function WayOut(place: Place, i: ThreadId, now: real): seq<Action> {
    match place
    case Holding(_, _) => [LookAtCache(i), BeginCollection(i), FailCollection(i), Return(i)]
    case Noted(_, _) => [BeginCollection(i), FailCollection(i), Return(i)]
    case Collecting(_, _, _) => [FailCollection(i), Return(i)]
    case Collected(_, _, _) => [StoreReport(i, now), Return(i)]
    case _ => [Return(i)]
  }

  /** No call keeps the lock for good: its holder can always end its call by itself, even if the collectors fail. */
  lemma HolderCanLeave(refresh: real, actions: seq<Action>, i: ThreadId, now: real)
    requires Run(refresh, actions).holder == Some(i)
    ensures var after := Run(refresh, actions + WayOut(Run(refresh, actions).At(i), i, now));
            after.holder.None? && after.At(i).Outside?
  {
    RunIsTold(refresh, actions);
    hide Run, Told;
    var s := Run(refresh, actions);
    assert InSection(s.At(i)) <==> s.holder == Some(i);
    RunsOnward(refresh, actions, WayOut(s.At(i), i, now));
    Leaves(refresh, s, |actions|, i, now);
  }

  lemma {:induction false} Leaves(refresh: real, s: State, n: nat, i: ThreadId, now: real)
    requires InSection(s.At(i))
    ensures var after := Onward(refresh, s, n, WayOut(s.At(i), i, now));
            after.holder.None? && after.At(i).Outside?
    decreases |WayOut(s.At(i), i, now)|
  {
    var out := WayOut(s.At(i), i, now);
    var next := Step(s, refresh, out[0], n);
    if |out| == 1 {
      assert out[1..] == [];
    } else if next.At(i).Answering? && |out| > 2 {
      assert out[1..] == [BeginCollection(i), FailCollection(i), Return(i)];
      Idles(refresh, next, n + 1, i);
    } else {
      assert out[1..] == WayOut(next.At(i), i, now);
      Leaves(refresh, next, n + 1, i, now);
    }
  }

  /** With an answer at hand nothing but the return has an effect. */
  lemma Idles(refresh: real, s: State, n: nat, i: ThreadId)
    requires s.At(i).Answering?
    ensures Onward(refresh, s, n, [BeginCollection(i), FailCollection(i), Return(i)]) == Step(s, refresh, Return(i), n + 2)
  {
    var more := [BeginCollection(i), FailCollection(i), Return(i)];
    assert more[1..] == [FailCollection(i), Return(i)] && more[1..][1..] == [Return(i)] && [Return(i)][1..] == [];
    assert Onward(refresh, s, n + 2, [Return(i)]) == Step(s, refresh, Return(i), n + 2);
    assert Onward(refresh, s, n + 1, more[1..]) == Onward(refresh, s, n + 2, [Return(i)]);
  }
}
