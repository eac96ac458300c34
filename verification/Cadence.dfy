/**
 * The monotonic sampling cadence (`SchedulerCadenceState` in health_history/scheduler.py).
 * Clock readings are exact: floating-point rounding is not part of this model.
 */
module Cadence {
  import opened Wrappers
  import opened HealthModels

  const MIN_SAMPLE_INTERVAL_SECONDS: int := 5
  const MAX_SAMPLE_INTERVAL_SECONDS: int := 300

  predicate IsInterval(interval: int) {
    MIN_SAMPLE_INTERVAL_SECONDS <= interval <= MAX_SAMPLE_INTERVAL_SECONDS
  }

  predicate IsMonotonic(t: real) {
    0.0 <= t <= MAX_TIMESTAMP_US as real
  }

  datatype CadenceState = CadenceState(planned: real, lastSeen: real, pending: int) {
    predicate Valid() {
      IsMonotonic(planned) && IsMonotonic(lastSeen) && IsCounter(pending)
    }
  }

  datatype DueDecision = DueDecision(due: bool, missed: int, checked: real, next: real)

  /** How many whole intervals have passed since the planned deadline. */
  function Elapsed(planned: real, now: real, interval: int): (n: nat)
    requires planned <= now && IsInterval(interval)
  {
    ElapsedIsNat(planned, now, interval);
    ((now - planned) / interval as real).Floor
  }

  lemma ElapsedIsNat(planned: real, now: real, interval: int)
    requires planned <= now && IsInterval(interval)
    ensures ((now - planned) / interval as real).Floor >= 0
  {
    assert (now - planned) / interval as real >= 0.0;
  }

  /** The k-th deadline of the grid that starts at `planned`. */
  function Deadline(planned: real, k: int, interval: int): real {
    planned + k as real * interval as real
  }

  /** `None` is an invalid clock. */
  function Decide(s: CadenceState, now: real, interval: int): Option<DueDecision>
    requires IsInterval(interval)
  {
    if !IsMonotonic(now) || now < s.lastSeen then None
    else if now < s.planned then Some(DueDecision(false, 0, now, s.planned))
    else
      var elapsed := Elapsed(s.planned, now, interval);
      var next := Deadline(s.planned, elapsed + 1, interval);
      if !IsMonotonic(next) || next <= now then None
      else Some(DueDecision(true, Min(elapsed, MAX_BOUNDED_COUNTER), now, next))
  }

  /** `None` is an inconsistent decision. */
  function AfterCheck(s: CadenceState, decision: DueDecision, consume: bool, pending: int): Option<CadenceState> {
    if
      || decision.checked < s.lastSeen
      || (consume && !decision.due)
      || (decision.due && (decision.checked < s.planned || decision.next <= decision.checked))
      || (!decision.due && (decision.checked >= s.planned || decision.next != s.planned))
      || !IsCounter(pending)
    then None
    else Some(CadenceState(if consume then decision.next else s.planned, decision.checked, pending))
  }

  /** Exactly the deadlines up to the elapsed count are not after the present. */
  lemma DeadlinesPassed(planned: real, now: real, interval: int, k: nat)
    requires planned <= now && IsInterval(interval)
    ensures Deadline(planned, k, interval) <= now <==> k <= Elapsed(planned, now, interval)
  {
    var n, i := Elapsed(planned, now, interval), interval as real;
    var q := (now - planned) / i;
    Quotient(now - planned, i);
    assert n as real <= q < n as real + 1.0;
    if k <= n {
      Scaled(k as real, q, i);
    } else {
      ScaledStrictly(q, k as real, i);
    }
  }

  lemma Quotient(a: real, i: real)
    requires i > 0.0
    ensures a / i * i == a
  {
  }

  lemma Scaled(a: real, b: real, i: real)
    requires a <= b && i > 0.0
    ensures a * i <= b * i
  {
  }

  lemma ScaledStrictly(a: real, b: real, i: real)
    requires a < b && i > 0.0
    ensures a * i < b * i
  {
  }

  /**
   * The next deadline is the first one of the grid that lies after the present, and what is
   * reported missed is the number of deadlines that passed before the one now due.
   */
  lemma NextIsFirstAfter(s: CadenceState, now: real, interval: int)
    requires IsInterval(interval) && Decide(s, now, interval).Some? && Decide(s, now, interval).value.due
    ensures var decision, n := Decide(s, now, interval).value, Elapsed(s.planned, now, interval);
            && decision.next == Deadline(s.planned, n + 1, interval)
            && decision.next > now
            && (forall k: nat :: k <= n <==> Deadline(s.planned, k, interval) <= now)
            && decision.missed == Min(n, MAX_BOUNDED_COUNTER)
  {
    forall k: nat
      ensures k <= Elapsed(s.planned, now, interval) <==> Deadline(s.planned, k, interval) <= now
    {
      DeadlinesPassed(s.planned, now, interval, k);
    }
  }

  /** A clock reading is refused exactly if it is out of range, goes back, or leaves no further deadline. */
  lemma RefusedExactly(s: CadenceState, now: real, interval: int)
    requires s.Valid() && IsInterval(interval)
    ensures Decide(s, now, interval).None? <==>
              || !IsMonotonic(now)
              || now < s.lastSeen
              || (s.planned <= now &&
                  Deadline(s.planned, Elapsed(s.planned, now, interval) + 1, interval) > MAX_TIMESTAMP_US as real)
  {
    if IsMonotonic(now) && s.planned <= now {
      DeadlinesPassed(s.planned, now, interval, Elapsed(s.planned, now, interval) + 1);
    }
  }

  /** The cadence never refuses a decision of its own. */
  lemma OwnDecisionFits(s: CadenceState, now: real, interval: int, consume: bool, pending: int)
    requires IsInterval(interval) && s.Valid() && Decide(s, now, interval).Some?
    requires IsCounter(pending) && (consume ==> Decide(s, now, interval).value.due)
    ensures var decision := Decide(s, now, interval).value;
            var after := AfterCheck(s, decision, consume, pending);
            && after.Some? && after.value.Valid()
            && after.value == CadenceState(if consume then decision.next else s.planned, now, pending)
  {
  }
}
