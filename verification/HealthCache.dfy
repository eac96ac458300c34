/**
 * The health cache (dashboard/service.py) under any interleaving of any number of threads.  One
 * action is one atomic step of one thread; blocking on the collection lock is not being able to act.
 */
module HealthCache {
  import opened Wrappers

  type ThreadId = int

  /** A report is known by the index of the action that began its collection. */
  datatype Report = Report(beganAt: nat)

  /** What a thread saw of the cache, by the index of that action: its clock and the generation. */
  datatype Look = Look(at: nat, now: real, generation: nat)

  /** Where a thread stands in `get_health`, and at which index its call started. */
  datatype Place =
    | Outside
    | Called(calledAt: nat)
    | Holding(calledAt: nat, now: real)
    | Noted(calledAt: nat, look: Look)
    | Collecting(calledAt: nat, look: Look, report: Report)
    | Collected(calledAt: nat, look: Look, report: Report)
    | Answering(calledAt: nat, answer: Option<Report>)

  /** The thread holds the collection lock. */
  predicate InSection(place: Place) {
    !place.Outside? && !place.Called?
  }

  datatype Answer = Answer(calledAt: nat, report: Report)

  datatype State = State(
    places: map<ThreadId, Place>,
    holder: Option<ThreadId>,
    cached: Option<(Report, real)>,
    generation: nat,
    answers: seq<Answer>)
  {
    function At(i: ThreadId): Place {
      if i in places then places[i] else Outside
    }
  }

  const START := State(map[], None, None, 0, [])

  datatype Action =
    | Call(i: ThreadId)
    | TakeLock(i: ThreadId, now: real)
    | LookAtCache(i: ThreadId)
    | BeginCollection(i: ThreadId)
    | EndCollection(i: ThreadId)
    | FailCollection(i: ThreadId)
    | StoreReport(i: ThreadId, now: real)
    | Return(i: ThreadId)
    | Invalidate

  function Move(s: State, i: ThreadId, place: Place): State {
    s.(places := s.places[i := place])
  }

  /** The action with index `n`; an action that is not possible does nothing. */
  function Step(s: State, refresh: real, a: Action, n: nat): State {
    match a
    case Call(i) => if s.At(i).Outside? then Move(s, i, Called(n)) else s
    case TakeLock(i, now) =>
      if s.At(i).Called? && s.holder.None? then Move(s.(holder := Some(i)), i, Holding(s.At(i).calledAt, now)) else s
    case LookAtCache(i) =>
      if !s.At(i).Holding? then s
      else if s.cached.Some? && s.At(i).now - s.cached.value.1 < refresh then
        Move(s, i, Answering(s.At(i).calledAt, Some(s.cached.value.0)))
      else
        Move(s, i, Noted(s.At(i).calledAt, Look(n, s.At(i).now, s.generation)))
    case BeginCollection(i) =>
      if s.At(i).Noted? then Move(s, i, Collecting(s.At(i).calledAt, s.At(i).look, Report(n))) else s
    case EndCollection(i) =>
      if s.At(i).Collecting? then Move(s, i, Collected(s.At(i).calledAt, s.At(i).look, s.At(i).report)) else s
    case FailCollection(i) =>
      if s.At(i).Collecting? then Move(s, i, Answering(s.At(i).calledAt, None)) else s
    case StoreReport(i, now) =>
      if !s.At(i).Collected? then s
      else
        var stored := if s.At(i).look.generation == s.generation then s.(cached := Some((s.At(i).report, now))) else s;
        Move(stored, i, Answering(s.At(i).calledAt, Some(s.At(i).report)))
    case Return(i) =>
      if !s.At(i).Answering? then s
      else
        var answers :=
          if s.At(i).answer.Some? then s.answers + [Answer(s.At(i).calledAt, s.At(i).answer.value)] else s.answers;
        Move(s.(holder := None, answers := answers), i, Outside)
    case Invalidate =>
      s.(generation := s.generation + 1, cached := None)
  }

  function Run(refresh: real, actions: seq<Action>): State {
    if actions == [] then START
    else
      var n := |actions| - 1;
      Step(Run(refresh, actions[..n]), refresh, actions[n], n)
  }

  // ---------- The invariant ----------

  /** How many invalidations there were among the first `n` actions. */
  function Invalidations(actions: seq<Action>, n: nat): nat
    requires n <= |actions|
  {
    if n == 0 then 0 else Invalidations(actions, n - 1) + if actions[n - 1].Invalidate? then 1 else 0
  }

  lemma {:induction false} InvalidationsGrow(actions: seq<Action>, m: nat, n: nat)
    requires m <= n <= |actions|
    ensures Invalidations(actions, m) <= Invalidations(actions, n)
    ensures forall j :: m <= j < n && actions[j].Invalidate? ==> Invalidations(actions, m) < Invalidations(actions, n)
  {
    if m < n {
      InvalidationsGrow(actions, m, n - 1);
    }
  }

  lemma {:induction false} InvalidationsOfPrefix(actions: seq<Action>, a: Action, n: nat)
    requires n <= |actions|
    ensures Invalidations(actions + [a], n) == Invalidations(actions, n)
  {
    if n > 0 {
      InvalidationsOfPrefix(actions, a, n - 1);
    }
  }

  /** The report was collected, and how many invalidations came before that. */
  predicate Genuine(actions: seq<Action>, report: Report) {
    report.beganAt < |actions| && actions[report.beganAt].BeginCollection?
  }

  function GenerationOf(actions: seq<Action>, report: Report): nat
    requires Genuine(actions, report)
  {
    Invalidations(actions, report.beganAt)
  }

  /** What is known of a thread in the middle of a call. */
  predicate PlaceOk(actions: seq<Action>, place: Place) {
    match place
    case Outside => true
    case Called(calledAt) => calledAt < |actions|
    case Holding(calledAt, _) => calledAt < |actions|
    case Noted(calledAt, look) => LookOk(actions, calledAt, look)
    case Collecting(calledAt, look, report) => Collects(actions, calledAt, look, report)
    case Collected(calledAt, look, report) => Collects(actions, calledAt, look, report)
    case Answering(calledAt, answer) => calledAt < |actions| && (answer.Some? ==> Fresh(actions, calledAt, answer.value))
  }

  /** The thread looked at the cache during its call, and noted how many invalidations there had been. */
  predicate LookOk(actions: seq<Action>, calledAt: nat, look: Look) {
    && calledAt < look.at < |actions| && actions[look.at].LookAtCache?
    && look.generation == Invalidations(actions, look.at)
    && Invalidations(actions, calledAt) <= look.generation <= Invalidations(actions, |actions|)
  }

  predicate Collects(actions: seq<Action>, calledAt: nat, look: Look, report: Report) {
    && LookOk(actions, calledAt, look) && Fresh(actions, calledAt, report)
    && look.at < report.beganAt && look.generation <= GenerationOf(actions, report)
  }

  /** No invalidation before the call is missed by the report. */
  predicate Fresh(actions: seq<Action>, calledAt: nat, report: Report) {
    calledAt < |actions| && Genuine(actions, report) && Invalidations(actions, calledAt) <= GenerationOf(actions, report)
  }

  ghost predicate Ok(s: State, actions: seq<Action>) {
    && s.generation == Invalidations(actions, |actions|)
    && (forall i :: InSection(s.At(i)) ==> s.holder == Some(i))
    && (forall i :: PlaceOk(actions, s.At(i)))
    && (s.cached.Some? ==> Genuine(actions, s.cached.value.0) && GenerationOf(actions, s.cached.value.0) == s.generation)
    && (forall k :: 0 <= k < |s.answers| ==> Fresh(actions, s.answers[k].calledAt, s.answers[k].report))
  }

  /** What was known of a thread stays true as time goes on. */
  lemma PlaceStaysOk(actions: seq<Action>, a: Action, place: Place)
    requires PlaceOk(actions, place)
    ensures PlaceOk(actions + [a], place)
    ensures forall calledAt, report :: Fresh(actions, calledAt, report) ==> Fresh(actions + [a], calledAt, report)
  {
    var next := actions + [a];
    forall n | 0 <= n <= |actions|
      ensures Invalidations(next, n) == Invalidations(actions, n)
    {
      InvalidationsOfPrefix(actions, a, n);
    }
    InvalidationsGrow(next, |actions|, |next|);
    hide Invalidations;
  }

  lemma CacheStaysOk(actions: seq<Action>, a: Action, report: Report)
    requires Genuine(actions, report)
    ensures Genuine(actions + [a], report) && GenerationOf(actions + [a], report) == GenerationOf(actions, report)
  {
    InvalidationsOfPrefix(actions, a, report.beganAt);
  }

  /** The acting thread's new place is right. */
  lemma ActorIsOk(s: State, refresh: real, actions: seq<Action>, a: Action)
    requires Ok(s, actions) && !a.Invalidate?
    ensures PlaceOk(actions + [a], Step(s, refresh, a, |actions|).At(a.i))
  {
    var n, place := |actions|, s.At(a.i);
    PlaceStaysOk(actions, a, place);
    InvalidationsOfPrefix(actions, a, n);
    if place.Called? || place.Holding? || place.Noted? {
      InvalidationsOfPrefix(actions, a, place.calledAt);
      InvalidationsGrow(actions + [a], place.calledAt, n);
    }
    if s.cached.Some? {
      CacheStaysOk(actions, a, s.cached.value.0);
    }
    hide Invalidations;
  }

  /** An invalidation empties the cache; anything else keeps it or stores a report of the current generation. */
  lemma CacheIsOk(s: State, refresh: real, actions: seq<Action>, a: Action)
    requires Ok(s, actions)
    ensures var next := Step(s, refresh, a, |actions|);
            next.cached.Some? ==>
              && Genuine(actions + [a], next.cached.value.0)
              && GenerationOf(actions + [a], next.cached.value.0) == next.generation
  {
    if s.cached.Some? {
      CacheStaysOk(actions, a, s.cached.value.0);
    }
    if a.StoreReport? && s.At(a.i).Collected? {
      var report := s.At(a.i).report;
      assert PlaceOk(actions, s.At(a.i));
      CacheStaysOk(actions, a, report);
      InvalidationsGrow(actions, report.beganAt, |actions|);
    }
    hide Invalidations;
  }

  lemma GenerationIsOk(s: State, refresh: real, actions: seq<Action>, a: Action)
    requires Ok(s, actions)
    ensures Step(s, refresh, a, |actions|).generation == Invalidations(actions + [a], |actions + [a]|)
  {
    hide PlaceOk, Fresh, Genuine, InSection;
    InvalidationsOfPrefix(actions, a, |actions|);
  }

  lemma PlacesAreOk(s: State, refresh: real, actions: seq<Action>, a: Action)
    requires Ok(s, actions)
    ensures forall i :: PlaceOk(actions + [a], Step(s, refresh, a, |actions|).At(i))
  {
    hide PlaceOk, Fresh, Genuine, InSection, Invalidations;
    var next := Step(s, refresh, a, |actions|);
    if !a.Invalidate? {
      ActorIsOk(s, refresh, actions, a);
    }
    forall i
      ensures PlaceOk(actions + [a], next.At(i))
    {
      PlaceStaysOk(actions, a, s.At(i));
      assert a.Invalidate? || i != a.i ==> next.At(i) == s.At(i);
    }
  }

  /** A new answer is the one the acting thread had ready; the old ones stay fresh. */
  lemma AnswersAreOk(s: State, refresh: real, actions: seq<Action>, a: Action)
    requires Ok(s, actions)
    ensures var next := Step(s, refresh, a, |actions|);
            forall k :: 0 <= k < |next.answers| ==> Fresh(actions + [a], next.answers[k].calledAt, next.answers[k].report)
  {
    hide Fresh, Genuine, InSection, Invalidations;
    if !a.Invalidate? {
      assert PlaceOk(actions, s.At(a.i));
    }
    PlaceStaysOk(actions, a, Outside);
  }

  lemma StepKeepsOk(s: State, refresh: real, actions: seq<Action>, a: Action)
    requires Ok(s, actions)
    ensures Ok(Step(s, refresh, a, |actions|), actions + [a])
  {
    hide Step, PlaceOk, Fresh, Genuine, Invalidations, InSection;
    GenerationIsOk(s, refresh, actions, a);
    SectionIsExclusive(s, refresh, actions, a);
    PlacesAreOk(s, refresh, actions, a);
    CacheIsOk(s, refresh, actions, a);
    AnswersAreOk(s, refresh, actions, a);
  }

  lemma SectionIsExclusive(s: State, refresh: real, actions: seq<Action>, a: Action)
    requires Ok(s, actions)
    ensures var next := Step(s, refresh, a, |actions|);
            forall i :: InSection(next.At(i)) ==> next.holder == Some(i)
  {
    hide PlaceOk, Fresh, Genuine, Invalidations;
    var next := Step(s, refresh, a, |actions|);
    forall i
      ensures InSection(next.At(i)) ==> next.holder == Some(i)
    {
      assert InSection(s.At(i)) ==> s.holder == Some(i);
      assert !a.Invalidate? ==> (InSection(s.At(a.i)) ==> s.holder == Some(a.i));
    }
  }

  lemma StartIsOk()
    ensures Ok(START, [])
  {
  }

  lemma {:induction false} RunIsOk(refresh: real, actions: seq<Action>)
    ensures Ok(Run(refresh, actions), actions)
  {
    hide Ok, Step;
    if actions == [] {
      StartIsOk();
    } else {
      var n := |actions| - 1;
      RunIsOk(refresh, actions[..n]);
      StepKeepsOk(Run(refresh, actions[..n]), refresh, actions[..n], actions[n]);
      assert actions[..n] + [actions[n]] == actions;
    }
  }

  // ---------- The theorems ----------

  /** After any run, a cached report's collection began after every invalidation so far. */
  lemma CachedIsCurrent(refresh: real, actions: seq<Action>, j: nat)
    requires Run(refresh, actions).cached.Some? && j < |actions| && actions[j].Invalidate?
    ensures var report := Run(refresh, actions).cached.value.0;
            Genuine(actions, report) && j < report.beganAt
  {
    RunIsOk(refresh, actions);
    var report := Run(refresh, actions).cached.value.0;
    hide Invalidations;
    InvalidationsGrow(actions, report.beganAt, |actions|);
  }

  /**
   * A call that started after an invalidation returned never answers with a report whose
   * collection began before that invalidation.
   */
  lemma AnswersAreFresh(refresh: real, actions: seq<Action>, k: nat, j: nat)
    requires k < |Run(refresh, actions).answers|
    requires j < Run(refresh, actions).answers[k].calledAt && j < |actions| && actions[j].Invalidate?
    ensures var report := Run(refresh, actions).answers[k].report;
            Genuine(actions, report) && j < report.beganAt
  {
    RunIsOk(refresh, actions);
    var answer := Run(refresh, actions).answers[k];
    hide Invalidations;
    assert Fresh(actions, answer.calledAt, answer.report);
    if answer.report.beganAt <= j {
      InvalidationsGrow(actions, answer.report.beganAt, answer.calledAt);
    }
  }

  /** Two sweeps of the collectors never overlap. */
  lemma SweepsNeverOverlap(refresh: real, actions: seq<Action>, i: ThreadId, j: ThreadId)
    requires var s := Run(refresh, actions); s.At(i).Collecting? && s.At(j).Collecting?
    ensures i == j
  {
    RunIsOk(refresh, actions);
    var s := Run(refresh, actions);
    assert InSection(s.At(i)) && InSection(s.At(j));
  }
}
