/**
 * No operation waits (control_plane/ambient_service.py): the gate and the locks are nonblocking, so every
 * operation ends with its own steps, whatever the others do, and it is only called busy when another one holds
 * the gate.
 */
module ControlProgress {
  import opened MutationGate
  import opened ControlOperations
  import opened ControlRecords

  /** How many steps an operation has at most ahead of it. */
  function Rank(op: Operation): nat
    requires |op.attempted| <= |Plan(op.job)|
  {
    var ahead := 7 * (|Plan(op.job)| - |op.attempted|);
    match op.phase
    case Entering => 23
    case Before => ahead + 1
    case AtGate => ahead + 7
    case AtLock => ahead + 6
    case AtAdapter => ahead + 5
    case Unlocking(_) => ahead + 4
    case Ungating(_) => ahead + 3
    case Judging(_) => ahead + 2
    case Leaving(_) => 1
  }

  lemma RankIsBounded(op: Operation)
    requires OperationOk(op)
    ensures |op.attempted| <= |Plan(op.job)| && 1 <= Rank(op) <= 23
  {
    hide Subsequence;
  }

  /** Every own step brings an operation closer to its end. */
  lemma Advances(gate: Gate, locks: map<Service, ThreadId>, i: ThreadId, op: Operation, allowed: bool, has: bool, verifies: bool)
    requires MayMove(gate, locks, i, op)
    ensures var m := Proceed(gate, locks, i, op, allowed, has, verifies);
            && (m.op.Some? ==> m.op.value.serial == op.serial && |m.op.value.attempted| <= |Plan(op.job)| && m.op.value.job == op.job)
            && (m.op.Some? ==> |op.attempted| <= |Plan(op.job)| && Rank(m.op.value) < Rank(op))
            && (m.op.None? ==> m.outcome.Some? && m.outcome.value.serial == op.serial)
  {
    hide Subsequence, LastStep, Settled, ServiceOf;
  }

  /** How many steps thread `i` takes. */
  function StepsOf(actions: seq<Action>, i: ThreadId): nat {
    if actions == [] then 0
    else
      var last := actions[|actions| - 1];
      StepsOf(actions[..|actions| - 1], i) + if last.Go? && last.i == i then 1 else 0
  }

  /** An operation with this number has ended after the first `n` outcomes. */
  predicate Ended(w: World, n: nat, serial: nat) {
    exists k :: n <= k < |w.outcomes| && w.outcomes[k].serial == serial
  }

  /** It has ended, or it has come closer to its end with each of its steps. */
  predicate Nearer(w: World, n: nat, i: ThreadId, serial: nat, rank: int) {
    || Ended(w, n, serial)
    || (&& i in w.running && w.running[i].serial == serial && |w.running[i].attempted| <= |Plan(w.running[i].job)|
        && Rank(w.running[i]) <= rank)
  }

  lemma EndedStays(w: World, i: ThreadId, m: Move, n: nat, serial: nat)
    requires Ended(w, n, serial)
    ensures Ended(Apply(w, i, m), n, serial)
  {
    var k :| n <= k < |w.outcomes| && w.outcomes[k].serial == serial;
    assert Apply(w, i, m).outcomes[k] == w.outcomes[k];
  }

  lemma ComesNearer(w: World, n: nat, i: ThreadId, serial: nat, rank: int, a: Action)
    requires Ok(w) && n <= |w.outcomes| && Nearer(w, n, i, serial, rank)
    ensures Nearer(Step(w, a), n, i, serial, rank - if a.Go? && a.i == i then 1 else 0)
    ensures n <= |Step(w, a).outcomes|
  {
    hide GateOk, LocksOk, SerialsOk, LogOk, StepsOk, Ended, Proceed, MayMove, Rank, Plan;
    if a.Go? && a.i in w.running {
      OkMayMove(w, a.i);
      GateIsValid(w);
      var m := Proceed(w.gate, w.locks, a.i, w.running[a.i], a.allowed, a.hasAdapter, a.adapterVerifies);
      Advances(w.gate, w.locks, a.i, w.running[a.i], a.allowed, a.hasAdapter, a.adapterVerifies);
      if Ended(w, n, serial) {
        EndedStays(w, a.i, m, n, serial);
      } else if a.i == i && m.op.None? {
        EndsNow(w, i, m, n, serial);
      }
    } else if Ended(w, n, serial) {
      SameOutcomes(w, Step(w, a), n, serial);
    }
  }

  lemma SameOutcomes(w: World, next: World, n: nat, serial: nat)
    requires w.outcomes == next.outcomes
    ensures Ended(w, n, serial) == Ended(next, n, serial)
  {
  }

  lemma EndsNow(w: World, i: ThreadId, m: Move, n: nat, serial: nat)
    requires m.outcome.Some? && m.outcome.value.serial == serial && n <= |w.outcomes|
    ensures Ended(Apply(w, i, m), n, serial)
  {
    assert Apply(w, i, m).outcomes[|w.outcomes|].serial == serial;
  }

  lemma {:induction false} NearerAfter(actions: seq<Action>, i: ThreadId, more: seq<Action>)
    requires i in Run(actions).running && OperationOk(Run(actions).running[i])
    ensures var w, op := Run(actions), Run(actions).running[i];
            && |op.attempted| <= |Plan(op.job)| && |w.outcomes| <= |Run(actions + more).outcomes|
            && Nearer(Run(actions + more), |w.outcomes|, i, op.serial, Rank(op) - StepsOf(more, i))
    decreases |more|
  {
    hide Ended, Rank, Step, OperationOk, Ok, Plan;
    RankIsBounded(Run(actions).running[i]);
    if more == [] {
      assert actions + more == actions;
    } else {
      var before, a := more[..|more| - 1], more[|more| - 1];
      NearerAfter(actions, i, before);
      RunIsOk(actions + before);
      assert actions + more == actions + before + [a] && (actions + before + [a])[..|actions + before|] == actions + before;
      var w, op := Run(actions), Run(actions).running[i];
      ComesNearer(Run(actions + before), |w.outcomes|, i, op.serial, Rank(op) - StepsOf(before, i), a);
    }
  }

  /** An operation ends within 23 steps of its thread, however the steps of other threads come in between. */
  lemma EveryOperationEnds(actions: seq<Action>, i: ThreadId, more: seq<Action>)
    requires i in Run(actions).running && StepsOf(more, i) >= 23
    ensures Ended(Run(actions + more), |Run(actions).outcomes|, Run(actions).running[i].serial)
  {
    hide Ended, Run, Subsequence;
    RunIsOk(actions);
    assert OperationOk(Run(actions).running[i]);
    RankIsBounded(Run(actions).running[i]);
    NearerAfter(actions, i, more);
    RanksArePositive();
  }

  lemma RanksArePositive()
    ensures forall op: Operation :: |op.attempted| <= |Plan(op.job)| ==> Rank(op) >= 1
  {
  }

  /** An operation is called busy only while another thread holds the gate. */
  lemma BusyMeansHeld(actions: seq<Action>, i: ThreadId, allowed: bool, has: bool, verifies: bool)
    requires i in Run(actions).running
    requires var w := Step(Run(actions), Go(i, allowed, has, verifies));
             |w.outcomes| > |Run(actions).outcomes| && w.outcomes[|w.outcomes| - 1].status == Busy
    ensures exists j :: j != i && j in Run(actions).running && Holds(Run(actions).running[j]) > 0
  {
    RunIsOk(actions);
    RunIsTold(actions);
    var w := Run(actions);
    hide Run, LocksOk, SerialsOk, LogOk, OperationOk, Agrees, OnItsWay;
    assert OperationOk(w.running[i]) && RunningTold(w.log, w.running[i], AllOpen(actions));
    if w.running[i].phase.Leaving? {
      NotBusyLater(w.running[i]);
    }
    assert w.gate.owner.Some? ==> w.gate.Held(w.gate.owner.value) > 0;
  }

  lemma NotBusyLater(op: Operation)
    requires OperationOk(op) && OnItsWay(op) && op.phase.Leaving?
    ensures op.phase.status != Busy
  {
    hide Subsequence;
  }
}
