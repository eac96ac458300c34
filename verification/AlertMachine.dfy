/**
 * A reference model of alerting: what a small machine for each pair of scope and kind makes of the
 * accepted observations alone, without tables, plans or counters.
 */
module AlertMachine {
  import opened Wrappers
  import opened HealthModels
  import opened Projection
  import opened Lifecycle
  import opened HistoryTables
  import opened AlertTable

  /** The alert of a pair that is not archived, if there is one. */
  datatype Tracked =
    | NotRaised
    | Raised(occurrences: int, until: int)
    | Cooling(occurrences: int, until: int, recoveredAt: int)

  /** What an observation means for a pair. */
  datatype Signal = Quiet | Confirmed | Healed

  /** Fifteen minutes from now, as far as timestamps go. */
  function CooldownFrom(now: int): int {
    Min(now + 900_000_000, MAX_TIMESTAMP_US)
  }

  /** An alert whose cooldown is over is archived. */
  function Cooled(t: Tracked, now: int): Tracked {
    if t.Cooling? && t.until <= now then NotRaised else t
  }

  function Again(t: Tracked, now: int): Tracked
    requires t != NotRaised
  {
    t.(occurrences := Saturated(t.occurrences + 1), until := Max(t.until, CooldownFrom(now)))
  }

  function Next(t: Tracked, signal: Signal, now: int): Tracked {
    var settled := Cooled(t, now);
    match signal
    case Quiet => settled
    case Confirmed => if settled == NotRaised then Raised(1, CooldownFrom(now)) else Again(settled, now)
    case Healed =>
      if settled.Raised? then Cooling(settled.occurrences, Max(settled.until, CooldownFrom(now)), now) else settled
  }

  // ---------- Health scopes ----------

  /** The scope shows this status, and not just because something is switched off on purpose. */
  predicate Fails(p: HealthProjection, scope: AlertScope, status: Status) {
    match scope
    case Component(name) =>
      exists c :: c in p.components && c.component == name && c.status == status && !c.IntentionallyDisabled()
    case _ =>
      p.overall == status && exists c :: c in p.components && c.status == status && !c.IntentionallyDisabled()
  }

  predicate Thrives(p: HealthProjection, scope: AlertScope) {
    match scope
    case Component(name) => exists c :: c in p.components && c.component == name && c.status == Healthy
    case _ => p.overall == Healthy
  }

  /** The newest `n` observations all failed with this status. */
  predicate LastFailures(accepted: seq<HealthProjection>, scope: AlertScope, status: Status, n: nat) {
    n <= |accepted| && forall i :: |accepted| - n <= i < |accepted| ==> Fails(accepted[i], scope, status)
  }

  /** Both alerts of a health scope, and how often in a row it was healthy while one of them was raised. */
  datatype Watch = Watch(degraded: Tracked, unavailable: Tracked, healing: nat)

  /** Two healthy observations heal; three degraded or two unavailable ones confirm. */
  function HealthSignal(accepted: seq<HealthProjection>, scope: AlertScope, kind: AlertKind, healing: nat): Signal {
    if healing == 2 then Healed
    else if kind == DegradedAlert && LastFailures(accepted, scope, Degraded, 3) then Confirmed
    else if kind == UnavailableAlert && LastFailures(accepted, scope, Unavailable, 2) then Confirmed
    else Quiet
  }

  /** Both alerts of a scope after these observations. */
  function Watched(accepted: seq<HealthProjection>, scope: AlertScope): Watch {
    if accepted == [] then Watch(NotRaised, NotRaised, 0)
    else
      var n := |accepted| - 1;
      var p, before := accepted[n], Watched(accepted[..n], scope);
      var raised := before.degraded.Raised? || before.unavailable.Raised?;
      var healing := if Thrives(p, scope) && raised then before.healing + 1 else 0;
      Watch(
        Next(before.degraded, HealthSignal(accepted, scope, DegradedAlert, healing), p.recordedAt),
        Next(before.unavailable, HealthSignal(accepted, scope, UnavailableAlert, healing), p.recordedAt),
        healing)
  }

  /** Two healthy observations leave nothing raised, so there is never a third to count. */
  lemma {:induction false} HealingEnds(accepted: seq<HealthProjection>, scope: AlertScope)
    ensures var w := Watched(accepted, scope);
            w.healing <= 2 && (w.healing == 2 ==> !w.degraded.Raised? && !w.unavailable.Raised?)
  {
    hide LastFailures, Thrives;
    if accepted != [] {
      HealingEnds(accepted[..|accepted| - 1], scope);
    }
  }

  // ---------- Sampling gaps ----------

  /** Two or more intervals were missed; what a clock discontinuity reports does not count. */
  predicate OpensGap(p: HealthProjection) {
    p.missedIntervals >= 2 && p.kind != ClockDiscontinuity
  }

  predicate Misses(p: HealthProjection) {
    p.missedIntervals > 0 && p.kind != ClockDiscontinuity
  }

  /** On time, and no marker. */
  predicate OnTime(p: HealthProjection) {
    p.missedIntervals == 0 && p.kind != StartupGap && p.kind != ClockDiscontinuity
  }

  /** A startup marker without misses says nothing about the gap. */
  predicate SaysNothing(p: HealthProjection) {
    p.missedIntervals == 0 && p.kind == StartupGap
  }

  /** Two observations on time, with nothing but startup markers between them. */
  predicate EndsGap(accepted: seq<HealthProjection>, j: nat, k: nat)
    requires j < k < |accepted|
  {
    OnTime(accepted[j]) && OnTime(accepted[k]) && forall m :: j < m < k ==> SaysNothing(accepted[m])
  }

  /** A gap was opened by one of the observations and has not ended since. */
  ghost predicate GapLasts(accepted: seq<HealthProjection>, i: nat)
    requires i < |accepted|
  {
    OpensGap(accepted[i]) && forall j, k :: i < j < k < |accepted| ==> !EndsGap(accepted, j, k)
  }

  ghost predicate InGap(accepted: seq<HealthProjection>) {
    exists i :: 0 <= i < |accepted| && GapLasts(accepted, i)
  }

  /** The alert of the sampling scope: every miss within a gap confirms it, the end of the gap heals it. */
  ghost function GapWatched(accepted: seq<HealthProjection>): Tracked {
    if accepted == [] then NotRaised
    else
      var n := |accepted| - 1;
      var p, before := accepted[n], accepted[..n];
      var signal :=
        if InGap(accepted) && Misses(p) then Confirmed
        else if InGap(before) && !InGap(accepted) then Healed
        else Quiet;
      Next(GapWatched(before), signal, p.recordedAt)
  }

  // ---------- What a table shows ----------

  function Track(state: AlertState): Tracked {
    match state.recoveredAt
    case None => Raised(state.occurrences, state.cooldownUntil)
    case Some(at) => Cooling(state.occurrences, state.cooldownUntil, at)
  }

  /** The alert of the pair that is not archived is what the machine says, or there is none. */
  ghost predicate Shows(alerts: map<int, AlertRow>, scope: AlertScope, kind: AlertKind, t: Tracked) {
    if t == NotRaised then forall id :: id in alerts && OfPair(alerts[id], scope, kind) ==> !Live(alerts[id])
    else exists id :: id in alerts && OfPair(alerts[id], scope, kind) && Live(alerts[id]) && Track(alerts[id].state) == t
  }
}
