/** The health debouncer (health_history/evaluation.py): one observation moves one scope. */
module Evaluation {
  import opened Wrappers
  import opened HealthModels

  const DEGRADED_OPEN_THRESHOLD: int := 3
  const UNAVAILABLE_OPEN_THRESHOLD: int := 2
  const HEALTHY_RECOVERY_THRESHOLD: int := 2

  datatype HealthEvent = NoEvent | ConditionConfirmed | RecoveryConfirmed

  datatype HealthState = HealthState(
    current: Option<Status>,
    candidate: Option<Status>,
    count: int)
  {
    /** What the constructor of the state accepts. */
    predicate Valid() {
      && IsCounter(count)
      && (candidate.None? <==> count == 0)
      && (candidate.Some? ==> candidate == current)
    }
  }

  const INITIAL_STATE := HealthState(None, None, 0)

  datatype HealthInput = HealthInput(status: Status, disabled: bool, activeAlert: bool) {
    /** A component that is switched off on purpose cannot be healthy. */
    predicate Valid() {
      disabled ==> status != Healthy
    }

    /** The observation counts towards opening an alert. */
    predicate Failing() {
      !disabled && status != Healthy
    }
  }

  datatype HealthTransition = HealthTransition(state: HealthState, event: HealthEvent)

  function OpenThreshold(status: Status): int {
    if status == Degraded then DEGRADED_OPEN_THRESHOLD else UNAVAILABLE_OPEN_THRESHOLD
  }

  function NextCount(state: HealthState, status: Status): int {
    if state.candidate == Some(status) then Saturated(state.count + 1) else 1
  }

  function EvaluateHealthState(state: HealthState, input: HealthInput): (t: HealthTransition)
    requires state.Valid() && input.Valid()
    ensures t.state.Valid() && t.state.current == Some(input.status)
    ensures t.event == ConditionConfirmed ==> input.Failing()
    ensures t.event == RecoveryConfirmed ==> input.status == Healthy && input.activeAlert
  {
    if input.disabled then
      HealthTransition(HealthState(Some(input.status), None, 0), NoEvent)
    else if input.status == Healthy then
      EvaluateHealthy(state, input.activeAlert)
    else
      var count := NextCount(state, input.status);
      HealthTransition(
        HealthState(Some(input.status), Some(input.status), count),
        if count >= OpenThreshold(input.status) then ConditionConfirmed else NoEvent)
  }

  function EvaluateHealthy(state: HealthState, activeAlert: bool): (t: HealthTransition)
    requires state.Valid()
  {
    var settled := HealthState(Some(Healthy), None, 0);
    if !activeAlert then
      HealthTransition(settled, NoEvent)
    else
      var count := NextCount(state, Healthy);
      if count >= HEALTHY_RECOVERY_THRESHOLD then
        HealthTransition(settled, RecoveryConfirmed)
      else
        HealthTransition(HealthState(Some(Healthy), Some(Healthy), count), NoEvent)
  }

  // ---------- Whole runs of observations of one scope ----------

  predicate ValidInputs(inputs: seq<HealthInput>) {
    forall i :: 0 <= i < |inputs| ==> inputs[i].Valid()
  }

  /** The state of the debouncer after a run, starting from the row a new database holds. */
  function StateAfter(inputs: seq<HealthInput>): (state: HealthState)
    requires ValidInputs(inputs)
    ensures state.Valid()
  {
    if inputs == [] then INITIAL_STATE
    else EvaluateHealthState(StateAfter(inputs[..|inputs| - 1]), inputs[|inputs| - 1]).state
  }

  /** How many of the newest observations agree on one failing status. */
  function FailingRun(inputs: seq<HealthInput>): nat {
    var n := |inputs|;
    if n == 0 || !inputs[n - 1].Failing() then 0
    else if n >= 2 && inputs[n - 2].Failing() && inputs[n - 2].status == inputs[n - 1].status then
      1 + FailingRun(inputs[..n - 1])
    else 1
  }

  /** How many of the newest observations are healthy while an alert is still active. */
  function HealingRun(inputs: seq<HealthInput>): nat {
    var n := |inputs|;
    if n == 0 || inputs[n - 1].status != Healthy || !inputs[n - 1].activeAlert then 0
    else 1 + HealingRun(inputs[..n - 1])
  }

  /** The run length says what the newest observations look like, and nothing shorter does. */
  lemma {:induction false} FailingRunMeaning(inputs: seq<HealthInput>)
    ensures FailingRun(inputs) <= |inputs|
    ensures forall i :: |inputs| - FailingRun(inputs) <= i < |inputs| ==>
              inputs[i].Failing() && inputs[i].status == inputs[|inputs| - 1].status
    ensures var before := |inputs| - FailingRun(inputs) - 1;
            FailingRun(inputs) > 0 && before >= 0 ==>
              !(inputs[before].Failing() && inputs[before].status == inputs[|inputs| - 1].status)
  {
    if |inputs| >= 2 {
      FailingRunMeaning(inputs[..|inputs| - 1]);
    }
  }

  lemma {:induction false} HealingRunMeaning(inputs: seq<HealthInput>)
    ensures HealingRun(inputs) <= |inputs|
    ensures forall i :: |inputs| - HealingRun(inputs) <= i < |inputs| ==>
              inputs[i].status == Healthy && inputs[i].activeAlert
  {
    if |inputs| >= 1 {
      HealingRunMeaning(inputs[..|inputs| - 1]);
    }
  }

  /**
   * Debouncing over whole runs: the stored counter is the length of the current run of one
   * failing status, or the parity of the current run of healthy observations under an alert.
   */
  lemma {:induction false} CounterIsRunLength(inputs: seq<HealthInput>)
    requires ValidInputs(inputs)
    ensures var s := StateAfter(inputs);
            s.count == if |inputs| > 0 && inputs[|inputs| - 1].Failing()
                       then Saturated(FailingRun(inputs))
                       else HealingRun(inputs) % 2
    ensures |inputs| > 0 ==> StateAfter(inputs).current == Some(inputs[|inputs| - 1].status)
    ensures |inputs| > 0 && inputs[|inputs| - 1].Failing() ==>
              StateAfter(inputs).candidate == Some(inputs[|inputs| - 1].status)
  {
    if |inputs| > 0 {
      var before := inputs[..|inputs| - 1];
      CounterIsRunLength(before);
      FailingRunMeaning(before);
    }
  }

  /** The event raised by the newest observation of a run. */
  function EventAfter(inputs: seq<HealthInput>): HealthEvent
    requires ValidInputs(inputs) && inputs != []
  {
    EvaluateHealthState(StateAfter(inputs[..|inputs| - 1]), inputs[|inputs| - 1]).event
  }

  /** A condition is confirmed exactly when one failing status has lasted its threshold. */
  lemma {:induction false} ConfirmedExactlyAtThreshold(inputs: seq<HealthInput>)
    requires ValidInputs(inputs) && inputs != []
    ensures EventAfter(inputs) == ConditionConfirmed <==>
              && inputs[|inputs| - 1].Failing()
              && FailingRun(inputs) >= if inputs[|inputs| - 1].status == Degraded then 3 else 2
  {
    CounterIsRunLength(inputs);
    CounterIsRunLength(inputs[..|inputs| - 1]);
  }

  /** A recovery is confirmed exactly at every second healthy observation under an alert. */
  lemma {:induction false} RecoveredExactlyAtEverySecond(inputs: seq<HealthInput>)
    requires ValidInputs(inputs) && inputs != []
    ensures EventAfter(inputs) == RecoveryConfirmed <==>
              HealingRun(inputs) > 0 && HealingRun(inputs) % 2 == 0
  {
    CounterIsRunLength(inputs[..|inputs| - 1]);
  }
}
