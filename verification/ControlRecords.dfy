/**
 * What the finished operations of any number of threads report, held against the log of adapter calls
 * (control_plane/ambient_service.py): a step counts as verified exactly if its adapter call confirmed it, the
 * status says how far the plan got, and every operation ends.
 */
module ControlRecords {
  import opened Wrappers
  import opened MutationGate
  import opened ControlOperations

  // ---------- The log of one operation ----------

  /** The calls of one operation, in order. */
  function CallsOf(log: seq<AdapterCall>, serial: nat): seq<AdapterCall> {
    if log == [] then []
    else
      var n := |log| - 1;
      CallsOf(log[..n], serial) + if log[n].serial == serial then [log[n]] else []
  }

  function Steps(calls: seq<AdapterCall>): (steps: seq<ChildStep>)
    ensures |steps| == |calls|
  {
    if calls == [] then [] else Steps(calls[..|calls| - 1]) + [calls[|calls| - 1].step]
  }

  /** The steps that their calls confirmed. */
  function Confirmed(calls: seq<AdapterCall>): seq<ChildStep> {
    if calls == [] then []
    else
      var n := |calls| - 1;
      Confirmed(calls[..n]) + if calls[n].confirmed then [calls[n].step] else []
  }

  lemma OneMoreCall(log: seq<AdapterCall>, call: AdapterCall, serial: nat)
    ensures CallsOf(log + [call], serial) == CallsOf(log, serial) + if call.serial == serial then [call] else []
  {
    assert (log + [call])[..|log|] == log;
  }

  lemma OneMoreStep(calls: seq<AdapterCall>, call: AdapterCall)
    ensures Steps(calls + [call]) == Steps(calls) + [call.step]
    ensures Confirmed(calls + [call]) == Confirmed(calls) + if call.confirmed then [call.step] else []
  {
    assert (calls + [call])[..|calls|] == calls;
  }

  lemma {:induction false} NoCalls(log: seq<AdapterCall>, serial: nat)
    requires forall k :: 0 <= k < |log| ==> log[k].serial < serial
    ensures CallsOf(log, serial) == []
  {
    if log != [] {
      NoCalls(log[..|log| - 1], serial);
    }
  }

  // ---------- How far an operation has got ----------

  /** What the status of a finished operation says about its steps. */
  predicate Reported(job: Job, status: Status, attempted: seq<ChildStep>, verified: seq<ChildStep>) {
    match job
    case Direct(step) =>
      attempted == [step] && if status == Completed then verified == [step] else status == NotCompleted && verified == []
    case AmbientOn =>
      && attempted <= [VideoGrabberEnable, WledPowerOn, LedOutputEnable] && verified <= attempted
      && (status == Busy <==> attempted == [])
      && (status == NotCompleted <==> verified == [] && |attempted| == 1)
      && (status == PartiallyCompleted <==> verified != [] && |attempted| == |verified| + 1)
      && (status == Completed <==> |verified| == 3)
    case AmbientOff =>
      && (status == Busy <==> attempted == [])
      && (status == NotCompleted <==> attempted == [LedOutputDisable])
      && (status == NotCompleted || status == Busy ==> verified == [])
      && (status == PartiallyCompleted || status == Completed ==>
            && attempted == [LedOutputDisable, VideoGrabberDisable, WledPowerOff]
            && verified != [] && verified[0] == LedOutputDisable
            && (status == Completed <==> verified == attempted))
  }

  /** The same for an operation that is still running. */
  predicate OnItsWay(op: Operation) {
    match op.job
    case Direct(step) => op.verified == [] && (op.phase.Before? ==> op.attempted == []) && !op.phase.Leaving?
    case AmbientOn => if op.phase.Leaving? then Reported(AmbientOn, op.phase.status, op.attempted, op.verified) else true
    case AmbientOff =>
      if op.phase.Leaving? then Reported(AmbientOff, op.phase.status, op.attempted, op.verified)
      else Settled(op) == [] || (op.verified != [] && op.verified[0] == LedOutputDisable)
  }

  /** The result of the newest step, once it is known. */
  function Result(phase: Phase): Option<bool> {
    match phase
    case Unlocking(v) => Some(v)
    case Ungating(v) => Some(v)
    case Judging(v) => Some(v)
    case _ => None
  }

  /** The verified steps, with the newest one if it is known to be. */
  function Known(op: Operation): seq<ChildStep> {
    if Result(op.phase) == Some(true) then op.verified + [LastStep(op)] else op.verified
  }

  /** The attempted steps whose call is over, if there was one. */
  function Past(op: Operation): seq<ChildStep> {
    if op.phase.AtGate? || op.phase.AtLock? || op.phase.AtAdapter? then Settled(op) else op.attempted
  }

  /** The record of an operation agrees with its calls; `open` says that no check and no adapter is missing. */
  predicate Agrees(calls: seq<AdapterCall>, verified: seq<ChildStep>, past: seq<ChildStep>, open: bool) {
    && Confirmed(calls) == verified && Subsequence(Steps(calls), past)
    && (open ==> Steps(calls) == past)
  }

  predicate RunningTold(log: seq<AdapterCall>, op: Operation, open: bool) {
    OnItsWay(op) && Agrees(CallsOf(log, op.serial), Known(op), Past(op), open && !op.job.Direct?)
  }

  predicate OutcomeTold(log: seq<AdapterCall>, o: ControlOperations.Outcome, open: bool) {
    && Reported(o.job, o.status, o.attempted, o.verified)
    && Agrees(CallsOf(log, o.serial), o.verified, o.attempted, open && !o.job.Direct?)
  }

  ghost predicate Told(w: World, open: bool) {
    && (forall i :: i in w.running ==> RunningTold(w.log, w.running[i], open))
    && (forall k :: 0 <= k < |w.outcomes| ==> OutcomeTold(w.log, w.outcomes[k], open))
    && (forall k :: 0 <= k < |w.outcomes| ==> Finished(w, w.outcomes[k].serial))
  }

  /** The number of an operation that has ended. */
  ghost predicate Finished(w: World, serial: nat) {
    serial < w.nextSerial && forall i :: i in w.running ==> w.running[i].serial != serial
  }

  // ---------- One step of one operation ----------

  /** What its own next step does to the record of an operation. */
  predicate MoveTold(calls: seq<AdapterCall>, op: Operation, m: Move, open: bool) {
    var after := if m.call.Some? then calls + [m.call.value] else calls;
    && (m.op.Some? ==>
          OnItsWay(m.op.value) && Agrees(after, Known(m.op.value), Past(m.op.value), open && !op.job.Direct?))
    && (m.outcome.Some? ==>
          && m.outcome.value.serial == op.serial && m.outcome.value.job == op.job && m.op.None?
          && Reported(op.job, m.outcome.value.status, m.outcome.value.attempted, m.outcome.value.verified)
          && Agrees(after, m.outcome.value.verified, m.outcome.value.attempted, open && !op.job.Direct?))
    && (m.op.Some? <==> m.outcome.None?)
  }

  lemma LastAttempt(op: Operation)
    requires OperationOk(op) && InChild(op.phase)
    ensures op.attempted == Settled(op) + [LastStep(op)]
    ensures op.verified == [] ==> Known(op) == (if Result(op.phase) == Some(true) then [LastStep(op)] else [])
  {
    hide Subsequence;
  }

  lemma Skipped(part: seq<ChildStep>, whole: seq<ChildStep>, step: ChildStep)
    requires Subsequence(part, whole)
    ensures Subsequence(part, whole + [step]) && Subsequence(part + [step], whole + [step])
  {
    SubsequenceGrows(part, whole, step);
  }

  /** A child that does not come to its adapter, or comes there without one, leaves no call. */
  lemma WithoutCall(calls: seq<AdapterCall>, op: Operation, phase: Phase)
    requires OperationOk(op) && InChild(op.phase) && Result(op.phase).None? && Result(phase) == Some(false)
    requires Agrees(calls, Known(op), Past(op), false)
    ensures Agrees(calls, Known(op.(phase := phase)), Past(op.(phase := phase)), false)
  {
    hide Steps, Confirmed, Subsequence;
    LastAttempt(op);
    Skipped(Steps(calls), Settled(op), LastStep(op));
  }

  lemma WithCall(calls: seq<AdapterCall>, op: Operation, confirmed: bool, open: bool)
    requires OperationOk(op) && op.phase.AtAdapter? && Agrees(calls, Known(op), Past(op), open)
    ensures var next := op.(phase := Unlocking(confirmed));
            Agrees(calls + [AdapterCall(op.serial, LastStep(op), confirmed)], Known(next), Past(next), open)
  {
    hide Steps, Confirmed, Subsequence;
    LastAttempt(op);
    Skipped(Steps(calls), Settled(op), LastStep(op));
    OneMoreStep(calls, AdapterCall(op.serial, LastStep(op), confirmed));
  }

  lemma EnteringTold(calls: seq<AdapterCall>, gate: Gate, locks: map<Service, ThreadId>, i: ThreadId, op: Operation, open: bool)
    requires MayMove(gate, locks, i, op) && OnItsWay(op) && op.phase.Entering?
    requires Agrees(calls, Known(op), Past(op), open && !op.job.Direct?)
    ensures forall allowed, has, verifies :: MoveTold(calls, op, Proceed(gate, locks, i, op, allowed, has, verifies), open)
  {
    hide Steps, Confirmed, Subsequence, MayMove, Plan;
    assert OperationOk(op) by { NowOk(gate, locks, i, op); }
    WholeSubsequence(op.verified, Settled(op));
  }

  lemma NowOk(gate: Gate, locks: map<Service, ThreadId>, i: ThreadId, op: Operation)
    requires MayMove(gate, locks, i, op)
    ensures gate.Valid() && OperationOk(op) && gate.Held(i) == Holds(op)
    ensures op.phase.AtLock? ==> ServiceOf(LastStep(op)) !in locks
  {
    hide OperationOk, Holds, LastStep;
  }

  /** The next step of the plan is attempted: its call is still to come, or will not come. */
  function Trying(op: Operation, phase: Phase): Operation
    requires |op.attempted| < |Plan(op.job)|
  {
    op.(attempted := op.attempted + [Plan(op.job)[|op.attempted|]], phase := phase)
  }

  lemma TryingParts(op: Operation)
    requires OnItsWay(op) && op.phase.Before? && |op.attempted| < |Plan(op.job)|
    ensures var next := Trying(op, AtGate); OnItsWay(next) && Known(next) == Known(op) && Past(next) == Past(op)
    ensures var next := Trying(op, Judging(false));
            OnItsWay(next) && Known(next) == Known(op) && Past(next) == Past(op) + [Plan(op.job)[|op.attempted|]]
  {
    hide Plan, Reported;
    assert (op.attempted + [Plan(op.job)[|op.attempted|]])[..|op.attempted|] == op.attempted;
  }

  lemma TurnedAway(calls: seq<AdapterCall>, op: Operation, open: bool)
    requires op.phase.Before? && |op.attempted| < |Plan(op.job)| && Agrees(calls, Known(op), Past(op), open)
    requires var next := Trying(op, Judging(false)); Known(next) == Known(op) && Past(next) == Past(op) + [Plan(op.job)[|op.attempted|]]
    ensures Agrees(calls, Known(Trying(op, Judging(false))), Past(Trying(op, Judging(false))), false)
  {
    hide Plan, Steps, Confirmed, Subsequence, Known, Past;
    Skipped(Steps(calls), Past(op), Plan(op.job)[|op.attempted|]);
  }

  lemma BeforeTold(
    calls: seq<AdapterCall>, gate: Gate, locks: map<Service, ThreadId>, i: ThreadId, op: Operation,
    allowed: bool, has: bool, verifies: bool, open: bool)
    requires MayMove(gate, locks, i, op) && OnItsWay(op) && op.phase.Before? && (open ==> allowed)
    requires Agrees(calls, Known(op), Past(op), open && !op.job.Direct?)
    ensures MoveTold(calls, op, Proceed(gate, locks, i, op, allowed, has, verifies), open)
  {
    hide Agrees, MayMove, Plan, OnItsWay, Known, Past, OperationOk;
    NowOk(gate, locks, i, op);
    BoundsOfOk(op);
    TryingParts(op);
    TurnedAway(calls, op, open && !op.job.Direct?);
    assert Proceed(gate, locks, i, op, allowed, has, verifies) ==
      Stay(gate, locks, Trying(op, if allowed then AtGate else Judging(false)));
  }

  /** Only the phase of a child changes, and no result comes to be known by it. */
  lemma StaysOnItsWay(op: Operation, phase: Phase)
    requires OnItsWay(op) && InChild(op.phase) && InChild(phase)
    ensures OnItsWay(op.(phase := phase))
    ensures Result(op.phase) == Result(phase) ==>
              Known(op.(phase := phase)) == Known(op) && Past(op.(phase := phase)) == Past(op)
  {
    hide Reported;
  }

  /** An ambient operation passes the gate, because it holds it already. */
  lemma GateTold(
    calls: seq<AdapterCall>, gate: Gate, locks: map<Service, ThreadId>, i: ThreadId, op: Operation,
    allowed: bool, has: bool, verifies: bool, open: bool)
    requires MayMove(gate, locks, i, op) && OnItsWay(op) && op.phase.AtGate?
    requires Agrees(calls, Known(op), Past(op), open && !op.job.Direct?)
    ensures MoveTold(calls, op, Proceed(gate, locks, i, op, allowed, has, verifies), open)
  {
    hide Agrees, MayMove, OperationOk, OnItsWay, Known, Past, LastStep;
    NowOk(gate, locks, i, op);
    StaysOnItsWay(op, AtLock);
    StaysOnItsWay(op, Judging(false));
    if !CanAcquire(gate, i) {
      WeakerAgrees(calls, op, open && !op.job.Direct?);
      WithoutCall(calls, op, Judging(false));
    }
  }

  lemma WeakerAgrees(calls: seq<AdapterCall>, op: Operation, open: bool)
    requires Agrees(calls, Known(op), Past(op), open)
    ensures Agrees(calls, Known(op), Past(op), false)
  {
    hide Steps, Confirmed, Subsequence, Known, Past;
  }

  lemma LockTold(
    calls: seq<AdapterCall>, gate: Gate, locks: map<Service, ThreadId>, i: ThreadId, op: Operation,
    allowed: bool, has: bool, verifies: bool, open: bool)
    requires MayMove(gate, locks, i, op) && OnItsWay(op) && op.phase.AtLock?
    requires Agrees(calls, Known(op), Past(op), open && !op.job.Direct?)
    ensures MoveTold(calls, op, Proceed(gate, locks, i, op, allowed, has, verifies), open)
  {
    hide Agrees, MayMove, OperationOk, OnItsWay, Known, Past, LastStep;
    NowOk(gate, locks, i, op);
    StaysOnItsWay(op, AtAdapter);
  }

  lemma AdapterTold(
    calls: seq<AdapterCall>, gate: Gate, locks: map<Service, ThreadId>, i: ThreadId, op: Operation,
    allowed: bool, has: bool, verifies: bool, open: bool)
    requires MayMove(gate, locks, i, op) && OnItsWay(op) && op.phase.AtAdapter? && (open ==> has)
    requires Agrees(calls, Known(op), Past(op), open && !op.job.Direct?)
    ensures MoveTold(calls, op, Proceed(gate, locks, i, op, allowed, has, verifies), open)
  {
    hide Agrees, MayMove, OperationOk, OnItsWay, Known, Past, LastStep;
    NowOk(gate, locks, i, op);
    StaysOnItsWay(op, Unlocking(false));
    StaysOnItsWay(op, Unlocking(verifies));
    WithCall(calls, op, verifies, open && !op.job.Direct?);
    WeakerAgrees(calls, op, open && !op.job.Direct?);
    WithoutCall(calls, op, Unlocking(false));
  }

  lemma WayBackTold(
    calls: seq<AdapterCall>, gate: Gate, locks: map<Service, ThreadId>, i: ThreadId, op: Operation,
    allowed: bool, has: bool, verifies: bool, open: bool)
    requires MayMove(gate, locks, i, op) && OnItsWay(op) && (op.phase.Unlocking? || op.phase.Ungating?)
    requires Agrees(calls, Known(op), Past(op), open && !op.job.Direct?)
    ensures MoveTold(calls, op, Proceed(gate, locks, i, op, allowed, has, verifies), open)
  {
    hide Agrees, MayMove, OperationOk, OnItsWay, Known, Past, LastStep;
    NowOk(gate, locks, i, op);
    StaysOnItsWay(op, Ungating(op.phase.verified));
    StaysOnItsWay(op, Judging(op.phase.verified));
  }

  /** A judgement keeps the record, the newest step included. */
  predicate JudgesWell(op: Operation, m: Move) {
    && m.call.None?
    && (m.op.Some? ==>
          && m.outcome.None? && OnItsWay(m.op.value) && m.op.value.job == op.job
          && Known(m.op.value) == Known(op) && Past(m.op.value) == op.attempted)
    && (m.op.None? ==>
          && m.outcome.Some? && m.outcome.value.serial == op.serial && m.outcome.value.job == op.job
          && m.outcome.value.verified == Known(op) && m.outcome.value.attempted == op.attempted
          && Reported(op.job, m.outcome.value.status, m.outcome.value.attempted, m.outcome.value.verified))
  }

  lemma JudgesDirect(gate: Gate, locks: map<Service, ThreadId>, op: Operation, verified: bool)
    requires OperationOk(op) && OnItsWay(op) && op.phase == Judging(verified) && op.job.Direct?
    ensures JudgesWell(op, Judge(gate, locks, op, verified))
  {
    hide Subsequence;
  }

  lemma JudgesOn(gate: Gate, locks: map<Service, ThreadId>, op: Operation, verified: bool)
    requires OperationOk(op) && OnItsWay(op) && op.phase == Judging(verified) && op.job == AmbientOn
    ensures JudgesWell(op, Judge(gate, locks, op, verified))
  {
    hide Subsequence, OperationOk, Settled, LastStep;
    JudgedParts(op, verified);
    Settles(op);
  }

  lemma JudgesOff(gate: Gate, locks: map<Service, ThreadId>, op: Operation, verified: bool)
    requires OperationOk(op) && OnItsWay(op) && op.phase == Judging(verified) && op.job == AmbientOff
    ensures JudgesWell(op, Judge(gate, locks, op, verified))
  {
    hide Subsequence, OperationOk, Settled, LastStep;
    JudgedParts(op, verified);
    Settles(op);
  }

  lemma JudgingTold(calls: seq<AdapterCall>, gate: Gate, locks: map<Service, ThreadId>, op: Operation, verified: bool, open: bool)
    requires OperationOk(op) && OnItsWay(op) && op.phase == Judging(verified)
    requires Agrees(calls, Known(op), Past(op), open && !op.job.Direct?)
    ensures MoveTold(calls, op, Judge(gate, locks, op, verified), open)
  {
    hide Agrees, OperationOk, OnItsWay, Known, Judge, Reported;
    match op.job {
      case Direct(_) => JudgesDirect(gate, locks, op, verified);
      case AmbientOn => JudgesOn(gate, locks, op, verified);
      case AmbientOff => JudgesOff(gate, locks, op, verified);
    }
  }

  lemma Settles(op: Operation)
    requires OperationOk(op) && op.phase.Judging?
    ensures op.attempted == Settled(op) + [LastStep(op)] && |op.attempted| <= 3 && (op.job.Direct? ==> |op.attempted| == 1)
    ensures op.job == AmbientOn ==> op.verified == Settled(op)
    ensures Settled(op) == [] ==> op.verified == []
  {
    WholeSubsequence(op.verified, Settled(op));
    hide Subsequence;
  }

  lemma MovesTold(
    calls: seq<AdapterCall>, gate: Gate, locks: map<Service, ThreadId>, i: ThreadId, op: Operation,
    allowed: bool, has: bool, verifies: bool, open: bool)
    requires MayMove(gate, locks, i, op) && OnItsWay(op) && (open ==> allowed && has)
    requires Agrees(calls, Known(op), Past(op), open && !op.job.Direct?)
    ensures MoveTold(calls, op, Proceed(gate, locks, i, op, allowed, has, verifies), open)
  {
    hide Agrees, MayMove, MoveTold, OperationOk, OnItsWay, Judge;
    NowOk(gate, locks, i, op);
    match op.phase {
      case Entering => EnteringTold(calls, gate, locks, i, op, open);
      case Before => BeforeTold(calls, gate, locks, i, op, allowed, has, verifies, open);
      case Judging(verified) => JudgingTold(calls, gate, locks, op, verified, open);
      case Leaving(_) => LeavingTold(calls, gate, locks, i, op, open);
      case AtGate => GateTold(calls, gate, locks, i, op, allowed, has, verifies, open);
      case AtLock => LockTold(calls, gate, locks, i, op, allowed, has, verifies, open);
      case AtAdapter => AdapterTold(calls, gate, locks, i, op, allowed, has, verifies, open);
      case _ => WayBackTold(calls, gate, locks, i, op, allowed, has, verifies, open);
    }
  }

  lemma LeavingTold(calls: seq<AdapterCall>, gate: Gate, locks: map<Service, ThreadId>, i: ThreadId, op: Operation, open: bool)
    requires MayMove(gate, locks, i, op) && OnItsWay(op) && op.phase.Leaving?
    requires Agrees(calls, Known(op), Past(op), open && !op.job.Direct?)
    ensures forall allowed, has, verifies :: MoveTold(calls, op, Proceed(gate, locks, i, op, allowed, has, verifies), open)
  {
    hide Agrees, MayMove, Reported;
    NowOk(gate, locks, i, op);
  }

  // ---------- One step of the world ----------

  /** Another operation's calls are not touched by this one's. */
  lemma OtherCallsStay(log: seq<AdapterCall>, call: Option<AdapterCall>, op: Operation, serial: nat)
    requires (call.Some? ==> call.value.serial == op.serial) && serial != op.serial
    ensures CallsOf(if call.Some? then log + [call.value] else log, serial) == CallsOf(log, serial)
  {
    if call.Some? {
      OneMoreCall(log, call.value, serial);
    }
  }

  lemma OwnCallsGrow(log: seq<AdapterCall>, call: Option<AdapterCall>, serial: nat)
    requires call.Some? ==> call.value.serial == serial
    ensures CallsOf(if call.Some? then log + [call.value] else log, serial) ==
              if call.Some? then CallsOf(log, serial) + [call.value] else CallsOf(log, serial)
  {
    if call.Some? {
      OneMoreCall(log, call.value, serial);
    }
  }

  lemma RunningStaysTold(w: World, i: ThreadId, m: Move, open: bool)
    requires Told(w, open) && SerialsOk(w) && i in w.running && MovesLog(w.running[i], m)
    requires MoveTold(CallsOf(w.log, w.running[i].serial), w.running[i], m, open)
    ensures forall j :: j in Apply(w, i, m).running ==> RunningTold(Apply(w, i, m).log, Apply(w, i, m).running[j], open)
  {
    hide Agrees, OnItsWay, Known, Past, CallsOf, MayCall, Holds, OutcomeTold, Finished;
    var op, next := w.running[i], Apply(w, i, m);
    forall j | j in next.running
      ensures RunningTold(next.log, next.running[j], open)
    {
      if j == i {
        OwnCallsGrow(w.log, m.call, op.serial);
      } else {
        assert RunningTold(w.log, w.running[j], open);
        OtherCallsStay(w.log, m.call, op, w.running[j].serial);
      }
    }
  }

  lemma OutcomesStayTold(w: World, i: ThreadId, m: Move, open: bool)
    requires Told(w, open) && SerialsOk(w) && i in w.running && MovesLog(w.running[i], m)
    requires MoveTold(CallsOf(w.log, w.running[i].serial), w.running[i], m, open)
    ensures forall k :: 0 <= k < |Apply(w, i, m).outcomes| ==> OutcomeTold(Apply(w, i, m).log, Apply(w, i, m).outcomes[k], open)
    ensures forall k :: 0 <= k < |Apply(w, i, m).outcomes| ==> Finished(Apply(w, i, m), Apply(w, i, m).outcomes[k].serial)
  {
    hide Agrees, OnItsWay, Known, Past, CallsOf, MayCall, Holds, RunningTold, Reported;
    var op, next := w.running[i], Apply(w, i, m);
    forall k | 0 <= k < |next.outcomes|
      ensures OutcomeTold(next.log, next.outcomes[k], open)
      ensures Finished(next, next.outcomes[k].serial)
    {
      if k == |w.outcomes| {
        OwnCallsGrow(w.log, m.call, op.serial);
      } else {
        assert OutcomeTold(w.log, w.outcomes[k], open) && Finished(w, w.outcomes[k].serial);
        OtherCallsStay(w.log, m.call, op, w.outcomes[k].serial);
      }
    }
  }

  lemma GateIsValid(w: World)
    requires Ok(w)
    ensures w.gate.Valid()
  {
    hide LocksOk, SerialsOk, LogOk, StepsOk;
  }

  lemma GoKeepsTold(w: World, i: ThreadId, allowed: bool, has: bool, verifies: bool, open: bool)
    requires Ok(w) && Told(w, open) && i in w.running && (open ==> allowed && has)
    ensures Told(Apply(w, i, Proceed(w.gate, w.locks, i, w.running[i], allowed, has, verifies)), open)
  {
    hide GateOk, LocksOk, LogOk, StepsOk, Proceed, MovesLog, MoveTold, MayMove, Agrees, OnItsWay, Known, Past, CallsOf, OutcomeTold, Finished;
    OkMayMove(w, i);
    GateIsValid(w);
    var op := w.running[i];
    assert RunningTold(w.log, op, open);
    LogMoves(w.gate, w.locks, i, op, allowed, has, verifies);
    MovesTold(CallsOf(w.log, op.serial), w.gate, w.locks, i, op, allowed, has, verifies, open);
    var m := Proceed(w.gate, w.locks, i, op, allowed, has, verifies);
    RunningStaysTold(w, i, m, open);
    OutcomesStayTold(w, i, m, open);
  }

  lemma BeginKeepsTold(w: World, i: ThreadId, job: Job, open: bool)
    requires Ok(w) && Told(w, open) && i !in w.running
    ensures Told(Step(w, Begin(i, job)), open)
  {
    hide GateOk, LocksOk, LogOk, StepsOk, CallsOf, OutcomeTold;
    NoCalls(w.log, w.nextSerial);
    var next := Step(w, Begin(i, job));
    NewIsTold(w.log, job, w.nextSerial, open);
    hide RunningTold;
    forall k | 0 <= k < |next.outcomes|
      ensures Finished(next, next.outcomes[k].serial)
    {
      assert Finished(w, w.outcomes[k].serial);
    }
  }

  lemma NewIsTold(log: seq<AdapterCall>, job: Job, serial: nat, open: bool)
    requires CallsOf(log, serial) == []
    ensures RunningTold(log, Started(job, serial), open)
  {
    hide CallsOf;
  }

  /** No check turns a child away, and no adapter is missing. */
  predicate AllOpen(actions: seq<Action>) {
    forall k :: 0 <= k < |actions| && actions[k].Go? ==> actions[k].allowed && actions[k].hasAdapter
  }

  lemma {:induction false} RunIsTold(actions: seq<Action>)
    ensures Told(Run(actions), AllOpen(actions))
  {
    hide Ok, Apply, Proceed, Told;
    if actions == [] {
      NothingTold(AllOpen(actions));
    } else {
      var before, a := actions[..|actions| - 1], actions[|actions| - 1];
      var w := Run(before);
      RunIsOk(before);
      RunIsTold(before);
      if !AllOpen(actions) {
        ToldAnyway(w, AllOpen(before));
      }
      var open := AllOpen(actions);
      match a {
        case Begin(i, job) =>
          if i !in w.running {
            BeginKeepsTold(w, i, job, open);
          }
        case Go(i, allowed, has, verifies) =>
          if i in w.running {
            GoKeepsTold(w, i, allowed, has, verifies, open);
          }
      }
    }
  }

  lemma NothingTold(open: bool)
    ensures Told(START, open)
  {
  }

  lemma ToldAnyway(w: World, open: bool)
    requires Told(w, open)
    ensures Told(w, false)
  {
    hide OnItsWay, Reported, CallsOf, Steps, Confirmed, Subsequence, Known, Past, Finished;
    assert forall i :: i in w.running ==> RunningTold(w.log, w.running[i], open);
    assert forall k :: 0 <= k < |w.outcomes| ==> OutcomeTold(w.log, w.outcomes[k], open);
  }

  // ---------- The theorems ----------

  /**
   * A finished operation reports as verified exactly the steps that its calls confirmed; its calls are for attempted
   * steps, in their order; and its status says how far it got: AMBIENT_ON stops at the first step that is not
   * verified, AMBIENT_OFF goes on unless it is the very first.
   */
  lemma OutcomesMatchCalls(actions: seq<Action>, k: nat)
    requires k < |Run(actions).outcomes|
    ensures var o, calls := Run(actions).outcomes[k], CallsOf(Run(actions).log, Run(actions).outcomes[k].serial);
            && o.verified == Confirmed(calls) && Subsequence(Steps(calls), o.attempted)
            && Reported(o.job, o.status, o.attempted, o.verified)
  {
    hide CallsOf, Confirmed, Steps, Run, Reported;
    RunIsTold(actions);
    assert OutcomeTold(Run(actions).log, Run(actions).outcomes[k], AllOpen(actions));
  }

  /** With nothing turned away and no adapter missing, an ambient operation calls an adapter for every attempted step. */
  lemma EveryAttemptIsCalled(actions: seq<Action>, k: nat)
    requires AllOpen(actions) && k < |Run(actions).outcomes| && !Run(actions).outcomes[k].job.Direct?
    ensures var o := Run(actions).outcomes[k]; Steps(CallsOf(Run(actions).log, o.serial)) == o.attempted
  {
    hide CallsOf, Confirmed, Steps, Run, Reported;
    RunIsTold(actions);
    assert OutcomeTold(Run(actions).log, Run(actions).outcomes[k], AllOpen(actions));
  }

  /** If every call confirms its step as well, each ambient operation is completed, unless the gate was busy. */
  lemma AllGoodCompletes(actions: seq<Action>, k: nat)
    requires AllOpen(actions) && k < |Run(actions).outcomes| && !Run(actions).outcomes[k].job.Direct?
    requires forall n :: 0 <= n < |actions| && actions[n].Go? ==> actions[n].adapterVerifies
    ensures Run(actions).outcomes[k].status == Completed || Run(actions).outcomes[k].status == Busy
  {
    EveryAttemptIsCalled(actions, k);
    OutcomesMatchCalls(actions, k);
    CallsConfirm(actions);
    hide Run, Subsequence, CallsOf, Steps, Confirmed;
    var o := Run(actions).outcomes[k];
    AllConfirmed(Run(actions).log, o.serial);
  }

  lemma {:induction false} CallsConfirm(actions: seq<Action>)
    requires forall n :: 0 <= n < |actions| && actions[n].Go? ==> actions[n].adapterVerifies
    ensures forall n :: 0 <= n < |Run(actions).log| ==> Run(actions).log[n].confirmed
  {
    hide Proceed;
    if actions != [] {
      var before, a := actions[..|actions| - 1], actions[|actions| - 1];
      CallsConfirm(before);
      var w := Run(before);
      if a.Go? && a.i in w.running && w.gate.Valid() {
        CallAnswers(w.gate, w.locks, a.i, w.running[a.i], a.allowed, a.hasAdapter, a.adapterVerifies);
      }
    }
  }

  lemma CallAnswers(gate: Gate, locks: map<Service, ThreadId>, i: ThreadId, op: Operation, allowed: bool, has: bool, verifies: bool)
    requires gate.Valid()
    ensures var m := Proceed(gate, locks, i, op, allowed, has, verifies);
            m.call.Some? ==> m.call.value.confirmed == verifies && op.phase.AtAdapter? && has
  {
    hide LastStep, Plan;
  }

  lemma {:induction false} AllConfirmed(log: seq<AdapterCall>, serial: nat)
    requires forall n :: 0 <= n < |log| ==> log[n].confirmed
    ensures Confirmed(CallsOf(log, serial)) == Steps(CallsOf(log, serial))
  {
    if log != [] {
      var before, last := log[..|log| - 1], log[|log| - 1];
      AllConfirmed(before, serial);
      OneMoreStep(CallsOf(before, serial), last);
      assert CallsOf(before, serial) + [] == CallsOf(before, serial);
    }
  }
}
