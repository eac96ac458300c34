/**
 * Ambient, WLED and HyperHDR operations of any number of threads that share one mutation gate
 * (control_plane/ambient_service.py, wled_service.py, hyperhdr_service.py).  One action is one
 * atomic step of one thread.
 */
module ControlOperations {
  import opened Wrappers
  import opened MutationGate

  datatype Service = Wled | HyperHdr

  datatype ChildStep =
    | VideoGrabberEnable
    | WledPowerOn
    | LedOutputEnable
    | LedOutputDisable
    | VideoGrabberDisable
    | WledPowerOff

  function ServiceOf(step: ChildStep): Service {
    if step == WledPowerOn || step == WledPowerOff then Wled else HyperHdr
  }

  datatype Job = Direct(step: ChildStep) | AmbientOn | AmbientOff

  /** The fixed order of steps. */
  function Plan(job: Job): (steps: seq<ChildStep>)
    ensures |steps| >= 1
  {
    match job
    case Direct(step) => [step]
    case AmbientOn => [VideoGrabberEnable, WledPowerOn, LedOutputEnable]
    case AmbientOff => [LedOutputDisable, VideoGrabberDisable, WledPowerOff]
  }

  datatype Status = Completed | PartiallyCompleted | NotCompleted | Busy

  /** What a thread does next. */
  datatype Phase =
    | Entering
    | Before
    | AtGate
    | AtLock
    | AtAdapter
    | Unlocking(verified: bool)
    | Ungating(verified: bool)
    | Judging(verified: bool)
    | Leaving(status: Status)

  datatype Operation = Operation(serial: nat, job: Job, phase: Phase, attempted: seq<ChildStep>, verified: seq<ChildStep>)

  /** One adapter call on behalf of an operation, and whether it confirmed the step. */
  datatype AdapterCall = AdapterCall(serial: nat, step: ChildStep, confirmed: bool)

  datatype Outcome = Outcome(serial: nat, job: Job, status: Status, attempted: seq<ChildStep>, verified: seq<ChildStep>)

  /** `innerBusy` remembers whether an operation lock was ever found taken behind the gate. */
  datatype World = World(
    running: map<ThreadId, Operation>,
    gate: Gate,
    locks: map<Service, ThreadId>,
    log: seq<AdapterCall>,
    outcomes: seq<Outcome>,
    nextSerial: nat,
    innerBusy: bool)

  const START := World(map[], FREE, map[], [], [], 0, false)

  /** `allowed` stands for all checks of a child, its limiter included; the adapter may be missing or fail. */
  datatype Action =
    | Begin(i: ThreadId, job: Job)
    | Go(i: ThreadId, allowed: bool, hasAdapter: bool, adapterVerifies: bool)

  /** What one step of an operation does: to itself (`None` when it ends), to the gate and locks, and to the records. */
  datatype Move = Move(
    op: Option<Operation>,
    gate: Gate,
    locks: map<Service, ThreadId>,
    call: Option<AdapterCall>,
    outcome: Option<Outcome>,
    innerBusy: bool)

  function Stay(gate: Gate, locks: map<Service, ThreadId>, op: Operation): Move {
    Move(Some(op), gate, locks, None, None, false)
  }

  function End(gate: Gate, locks: map<Service, ThreadId>, op: Operation, status: Status): Move {
    Move(None, gate, locks, None, Some(Outcome(op.serial, op.job, status, op.attempted, op.verified)), false)
  }

  function LastStep(op: Operation): ChildStep {
    if op.attempted == [] then Plan(op.job)[0] else op.attempted[|op.attempted| - 1]
  }

  /** What follows the result of a child. */
  function Judge(gate: Gate, locks: map<Service, ThreadId>, op: Operation, verified: bool): Move {
    var n := |op.attempted|;
    var judged := if verified then op.(verified := op.verified + [LastStep(op)]) else op;
    match op.job
    case Direct(_) => End(gate, locks, judged, if verified then Completed else NotCompleted)
    case AmbientOn =>
      if !verified then
        Stay(gate, locks, judged.(phase := Leaving(if judged.verified != [] then PartiallyCompleted else NotCompleted)))
      else
        Stay(gate, locks, judged.(phase := if n < 3 then Before else Leaving(Completed)))
    case AmbientOff =>
      if !verified && n == 1 then Stay(gate, locks, judged.(phase := Leaving(NotCompleted)))
      else if n < 3 then Stay(gate, locks, judged.(phase := Before))
      else Stay(gate, locks, judged.(phase := Leaving(if |judged.verified| == 3 then Completed else PartiallyCompleted)))
  }

  /** The next step of a running operation; releasing what is not held would be an error, so nothing happens then. */
  function Proceed(
    gate: Gate, locks: map<Service, ThreadId>, i: ThreadId, op: Operation, allowed: bool, hasAdapter: bool, adapterVerifies: bool): Move
    requires gate.Valid()
  {
    var service := ServiceOf(LastStep(op));
    match op.phase
    case Entering =>
      if CanAcquire(gate, i) then Stay(Acquire(gate, i), locks, op.(phase := Before)) else End(gate, locks, op, Busy)
    case Before =>
      if |op.attempted| >= |Plan(op.job)| then Stay(gate, locks, op)
      else
        var trying := op.(attempted := op.attempted + [Plan(op.job)[|op.attempted|]]);
        Stay(gate, locks, trying.(phase := if allowed then AtGate else Judging(false)))
    case AtGate =>
      if CanAcquire(gate, i) then Stay(Acquire(gate, i), locks, op.(phase := AtLock))
      else Stay(gate, locks, op.(phase := Judging(false)))
    case AtLock =>
      if service in locks then Stay(gate, locks, op.(phase := Ungating(false))).(innerBusy := true)
      else Stay(gate, locks[service := i], op.(phase := AtAdapter))
    case AtAdapter =>
      if !hasAdapter then Stay(gate, locks, op.(phase := Unlocking(false)))
      else Stay(gate, locks, op.(phase := Unlocking(adapterVerifies))).(call := Some(AdapterCall(op.serial, LastStep(op), adapterVerifies)))
    case Unlocking(verified) => Stay(gate, locks - {service}, op.(phase := Ungating(verified)))
    case Ungating(verified) =>
      if gate.Held(i) == 0 then Stay(gate, locks, op) else Stay(Release(gate, i), locks, op.(phase := Judging(verified)))
    case Judging(verified) => Judge(gate, locks, op, verified)
    case Leaving(status) =>
      if gate.Held(i) == 0 then Stay(gate, locks, op) else End(Release(gate, i), locks, op, status)
  }

  function Apply(w: World, i: ThreadId, m: Move): World {
    World(
      if m.op.Some? then w.running[i := m.op.value] else w.running - {i},
      m.gate, m.locks,
      if m.call.Some? then w.log + [m.call.value] else w.log,
      if m.outcome.Some? then w.outcomes + [m.outcome.value] else w.outcomes,
      w.nextSerial,
      w.innerBusy || m.innerBusy)
  }

  function Started(job: Job, serial: nat): Operation {
    Operation(serial, job, if job.Direct? then Before else Entering, [], [])
  }

  function Step(w: World, a: Action): World {
    match a
    case Begin(i, job) =>
      if i in w.running then w
      else w.(running := w.running[i := Started(job, w.nextSerial)], nextSerial := w.nextSerial + 1)
    case Go(i, allowed, hasAdapter, adapterVerifies) =>
      if i in w.running && w.gate.Valid() then
        Apply(w, i, Proceed(w.gate, w.locks, i, w.running[i], allowed, hasAdapter, adapterVerifies))
      else
        w
  }

  function Run(actions: seq<Action>): World {
    if actions == [] then START else Step(Run(actions[..|actions| - 1]), actions[|actions| - 1])
  }

  // ---------- The invariant ----------

  /** How many acquisitions of the gate an operation holds in its phase. */
  function Holds(op: Operation): nat {
    var outer := if op.job.Direct? || op.phase.Entering? then 0 else 1;
    outer + if op.phase.AtLock? || op.phase.AtAdapter? || op.phase.Unlocking? || op.phase.Ungating? then 1 else 0
  }

  predicate HasLock(op: Operation) {
    op.phase.AtAdapter? || op.phase.Unlocking?
  }

  /** The result of the newest attempted child is still open. */
  predicate InChild(phase: Phase) {
    !phase.Entering? && !phase.Before? && !phase.Leaving?
  }

  /** `part` is `whole` with some steps left out. */
  predicate Subsequence(part: seq<ChildStep>, whole: seq<ChildStep>) {
    || part == []
    || (whole != [] && Subsequence(part, whole[..|whole| - 1]))
    || (whole != [] && part[|part| - 1] == whole[|whole| - 1] && Subsequence(part[..|part| - 1], whole[..|whole| - 1]))
  }

  lemma {:induction false} WholeSubsequence(part: seq<ChildStep>, whole: seq<ChildStep>)
    requires Subsequence(part, whole)
    ensures |part| <= |whole|
    ensures |part| == |whole| ==> part == whole
    decreases |whole|
  {
    if part != [] {
      var w := whole[..|whole| - 1];
      if Subsequence(part, w) {
        WholeSubsequence(part, w);
      } else {
        WholeSubsequence(part[..|part| - 1], w);
      }
    }
  }

  lemma SubsequenceGrows(part: seq<ChildStep>, whole: seq<ChildStep>, step: ChildStep)
    requires Subsequence(part, whole)
    ensures Subsequence(part, whole + [step]) && Subsequence(part + [step], whole + [step])
  {
    assert (whole + [step])[..|whole|] == whole && (part + [step])[..|part|] == part;
  }

  /** The attempted steps whose result is known. */
  function Settled(op: Operation): seq<ChildStep> {
    if InChild(op.phase) && op.attempted != [] then op.attempted[..|op.attempted| - 1] else op.attempted
  }

  /** The steps of an operation so far, and what its phase says about them. */
  predicate OperationOk(op: Operation) {
    var plan, n := Plan(op.job), |op.attempted|;
    && n <= |plan| && op.attempted == plan[..n]
    && Subsequence(op.verified, Settled(op))
    && (op.phase.Entering? ==> !op.job.Direct? && n == 0)
    && (op.phase.Before? ==> n < |plan|)
    && (InChild(op.phase) || op.phase.Leaving? ==> n >= 1)
    && (op.phase.Leaving? ==> !op.job.Direct? && (op.phase.status == Completed <==> op.verified == plan))
    && (op.job == AmbientOn && !op.phase.Leaving? ==> op.verified == Settled(op))
    && (op.job == AmbientOn ==> op.verified <= plan)
  }

  predicate OutcomeOk(o: Outcome) {
    && o.attempted <= Plan(o.job)
    && Subsequence(o.verified, o.attempted)
    && (o.status == Completed <==> o.verified == Plan(o.job))
    && (o.job == AmbientOn ==> o.verified <= o.attempted)
  }

  /** The operation may still call an adapter. */
  predicate MayCall(op: Operation) {
    if op.job.Direct? then op.phase.Before? || op.phase.AtGate? || op.phase.AtLock? || op.phase.AtAdapter?
    else !op.phase.Leaving?
  }

  predicate Logged(log: seq<AdapterCall>, serial: nat) {
    exists k :: 0 <= k < |log| && log[k].serial == serial
  }

  /** The calls of one operation stand next to each other. */
  ghost predicate Contiguous(log: seq<AdapterCall>) {
    forall a, b, c :: 0 <= a < b < c < |log| && log[a].serial == log[c].serial ==> log[b].serial == log[a].serial
  }

  /** An operation that may go on calling has its calls at the end of the log, and holds the gate. */
  predicate AtEndOfLog(log: seq<AdapterCall>, op: Operation) {
    MayCall(op) && Logged(log, op.serial) ==>
      !op.job.Direct? && !op.phase.Entering? && log[|log| - 1].serial == op.serial
  }

  function ServiceOfOperation(op: Operation): Service {
    ServiceOf(LastStep(op))
  }

  ghost predicate GateOk(w: World) {
    && w.gate.Valid()
    && forall i :: w.gate.Held(i) == if i in w.running then Holds(w.running[i]) else 0
  }

  ghost predicate LocksOk(w: World) {
    && (forall s :: s in w.locks ==>
          && w.locks[s] in w.running
          && HasLock(w.running[w.locks[s]]) && ServiceOfOperation(w.running[w.locks[s]]) == s)
    && (forall i :: i in w.running && HasLock(w.running[i]) ==>
          ServiceOfOperation(w.running[i]) in w.locks && w.locks[ServiceOfOperation(w.running[i])] == i)
  }

  ghost predicate SerialsOk(w: World) {
    && (forall i :: i in w.running ==> w.running[i].serial < w.nextSerial)
    && (forall i, j :: i in w.running && j in w.running && w.running[i].serial == w.running[j].serial ==> i == j)
    && (forall k :: 0 <= k < |w.log| ==> w.log[k].serial < w.nextSerial)
  }

  ghost predicate LogOk(w: World) {
    Contiguous(w.log) && forall i :: i in w.running ==> AtEndOfLog(w.log, w.running[i])
  }

  ghost predicate StepsOk(w: World) {
    && (forall i :: i in w.running ==> OperationOk(w.running[i]))
    && (forall k :: 0 <= k < |w.outcomes| ==> OutcomeOk(w.outcomes[k]))
  }

  ghost predicate Ok(w: World) {
    GateOk(w) && LocksOk(w) && SerialsOk(w) && LogOk(w) && StepsOk(w) && !w.innerBusy
  }

  // ---------- The gate excludes ----------

  /** Only one thread at a time holds the gate. */
  lemma OneHolder(w: World, i: ThreadId, j: ThreadId)
    requires GateOk(w) && i in w.running && j in w.running && Holds(w.running[i]) > 0 && Holds(w.running[j]) > 0
    ensures i == j
  {
    assert w.gate.Held(i) > 0 && w.gate.Held(j) > 0;
  }

  /** Behind the gate the operation lock is always free, so that BUSY answer is never given. */
  lemma LockIsFree(w: World, i: ThreadId)
    requires GateOk(w) && LocksOk(w) && i in w.running && w.running[i].phase.AtLock?
    ensures ServiceOfOperation(w.running[i]) !in w.locks
  {
    var s := ServiceOfOperation(w.running[i]);
    if s in w.locks {
      OneHolder(w, i, w.locks[s]);
    }
  }

  // ---------- One step of one operation ----------

  /** What the world guarantees to an operation that is about to take a step. */
  predicate MayMove(gate: Gate, locks: map<Service, ThreadId>, i: ThreadId, op: Operation) {
    && gate.Valid() && gate.Held(i) == Holds(op) && OperationOk(op)
    && (HasLock(op) ==> ServiceOfOperation(op) in locks && locks[ServiceOfOperation(op)] == i)
    && (op.phase.AtLock? ==> ServiceOfOperation(op) !in locks)
  }

  ghost predicate MovesGate(gate: Gate, i: ThreadId, m: Move) {
    && m.gate.Valid()
    && m.gate.Held(i) == (if m.op.Some? then Holds(m.op.value) else 0)
    && forall j :: j != i ==> m.gate.Held(j) == gate.Held(j)
  }

  lemma GateMoves(gate: Gate, locks: map<Service, ThreadId>, i: ThreadId, op: Operation, allowed: bool, has: bool, verifies: bool)
    requires MayMove(gate, locks, i, op)
    ensures MovesGate(gate, i, Proceed(gate, locks, i, op, allowed, has, verifies))
  {
    hide Subsequence, Settled, LastStep, Plan;
  }

  /** The locks change with the operation that takes or gives back one. */
  predicate MovesLocks(locks: map<Service, ThreadId>, i: ThreadId, op: Operation, m: Move) {
    var s := ServiceOfOperation(op);
    if HasLock(op) && m.op.Some? && !HasLock(m.op.value) then m.locks == locks - {s}
    else if !HasLock(op) && m.op.Some? && HasLock(m.op.value) then
      s !in locks && m.locks == locks[s := i] && ServiceOfOperation(m.op.value) == s
    else
      m.locks == locks && (HasLock(op) ==> m.op.Some? && ServiceOfOperation(m.op.value) == s)
  }

  lemma LocksMove(gate: Gate, locks: map<Service, ThreadId>, i: ThreadId, op: Operation, allowed: bool, has: bool, verifies: bool)
    requires MayMove(gate, locks, i, op)
    ensures var m := Proceed(gate, locks, i, op, allowed, has, verifies);
            MovesLocks(locks, i, op, m) && !m.innerBusy
  {
    hide Subsequence, Settled, Plan;
  }

  /** Who calls or may still call was allowed to before, and a direct operation calls once. */
  predicate MovesLog(op: Operation, m: Move) {
    && (m.op.Some? ==> m.op.value.serial == op.serial && m.op.value.job == op.job)
    && (m.call.Some? ==> MayCall(op) && Holds(op) > 0 && m.call.value.serial == op.serial && m.op.Some?)
    && (m.op.Some? && MayCall(m.op.value) ==> MayCall(op) && (op.job.Direct? ==> m.call.None?))
    && (m.op.Some? && m.op.value.phase.Entering? ==> op.phase.Entering?)
  }

  lemma LogMoves(gate: Gate, locks: map<Service, ThreadId>, i: ThreadId, op: Operation, allowed: bool, has: bool, verifies: bool)
    requires MayMove(gate, locks, i, op)
    ensures MovesLog(op, Proceed(gate, locks, i, op, allowed, has, verifies))
  {
    hide Subsequence;
  }

  predicate MovesSteps(m: Move) {
    && (m.op.Some? ==> OperationOk(m.op.value))
    && (m.outcome.Some? ==> OutcomeOk(m.outcome.value))
  }

  lemma PrefixesNest<T>(plan: seq<T>, shorter: seq<T>, longer: seq<T>)
    requires shorter <= plan && longer <= plan && |shorter| <= |longer|
    ensures shorter <= longer
  {
  }

  /** What is known when the result of a child is judged. */
  lemma JudgedParts(op: Operation, verified: bool)
    requires OperationOk(op) && op.phase.Judging?
    ensures op.attempted != [] && op.attempted <= Plan(op.job)
    ensures var after := if verified then op.verified + [LastStep(op)] else op.verified;
            && Subsequence(after, op.attempted)
            && |after| <= |op.attempted|
            && (|after| == |op.attempted| ==> after == op.attempted)
            && (op.job == AmbientOn ==> after <= op.attempted)
            && (!verified ==> |after| < |op.attempted|)
            && (op.job == AmbientOn && verified ==> after == op.attempted)
  {
    var settled, last := Settled(op), LastStep(op);
    assert op.attempted == settled + [last];
    SubsequenceGrows(op.verified, settled, last);
    WholeSubsequence(op.verified, settled);
    WholeSubsequence(if verified then op.verified + [last] else op.verified, op.attempted);
    hide Subsequence;
  }

  /** An ambient operation that has some steps of its plan behind it, and goes on or ends. */
  predicate Continues(op: Operation) {
    && !op.job.Direct? && op.attempted != [] && op.attempted <= Plan(op.job)
    && Subsequence(op.verified, op.attempted)
    && match op.phase
       case Before => |op.attempted| < 3 && (op.job == AmbientOn ==> op.verified == op.attempted)
       case Leaving(status) =>
         && (status == Completed <==> op.verified == Plan(op.job))
         && (op.job == AmbientOn ==> op.verified <= op.attempted)
       case _ => false
  }

  lemma ContinuesIsOk(op: Operation)
    requires Continues(op)
    ensures OperationOk(op)
  {
    hide Subsequence;
  }

  lemma JudgedOn(gate: Gate, locks: map<Service, ThreadId>, op: Operation, verified: bool)
    requires OperationOk(op) && op.phase.Judging? && op.job == AmbientOn
    ensures MovesSteps(Judge(gate, locks, op, verified))
  {
    hide OperationOk, Subsequence, LastStep;
    JudgedParts(op, verified);
    ContinuesIsOk(Judge(gate, locks, op, verified).op.value);
  }

  lemma JudgedOff(gate: Gate, locks: map<Service, ThreadId>, op: Operation, verified: bool)
    requires OperationOk(op) && op.phase.Judging? && op.job == AmbientOff
    ensures MovesSteps(Judge(gate, locks, op, verified))
  {
    hide OperationOk, Subsequence, LastStep;
    JudgedParts(op, verified);
    ContinuesIsOk(Judge(gate, locks, op, verified).op.value);
  }

  lemma JudgedDirect(gate: Gate, locks: map<Service, ThreadId>, op: Operation, verified: bool)
    requires OperationOk(op) && op.phase.Judging? && op.job.Direct?
    ensures MovesSteps(Judge(gate, locks, op, verified))
  {
    hide OperationOk, Subsequence, LastStep;
    JudgedParts(op, verified);
    assert op.attempted == Plan(op.job);
  }

  lemma JudgedIsOk(gate: Gate, locks: map<Service, ThreadId>, op: Operation, verified: bool)
    requires OperationOk(op) && op.phase.Judging?
    ensures MovesSteps(Judge(gate, locks, op, verified))
  {
    hide *;
    match op.job {
      case Direct(_) => JudgedDirect(gate, locks, op, verified);
      case AmbientOn => JudgedOn(gate, locks, op, verified);
      case AmbientOff => JudgedOff(gate, locks, op, verified);
    }
  }

  lemma EndedIsOk(op: Operation, status: Status)
    requires OperationOk(op)
    requires (op.phase.Entering? && status == Busy) || op.phase == Leaving(status)
    ensures OutcomeOk(Outcome(op.serial, op.job, status, op.attempted, op.verified))
  {
    WholeSubsequence(op.verified, Settled(op));
    hide Subsequence;
    if op.job == AmbientOn {
      PrefixesNest(Plan(op.job), op.verified, op.attempted);
    }
  }

  lemma TryingIsOk(op: Operation, allowed: bool)
    requires OperationOk(op) && op.phase.Before? && |op.attempted| < |Plan(op.job)|
    ensures var trying := op.(attempted := op.attempted + [Plan(op.job)[|op.attempted|]]);
            OperationOk(trying.(phase := if allowed then AtGate else Judging(false)))
  {
    var plan, n := Plan(op.job), |op.attempted|;
    assert op.attempted + [plan[n]] == plan[..n + 1];
    assert (op.attempted + [plan[n]])[..n] == op.attempted;
    hide Subsequence;
  }

  lemma BoundsOfOk(op: Operation)
    requires OperationOk(op)
    ensures op.phase.Before? ==> |op.attempted| < |Plan(op.job)|
  {
    hide Subsequence;
  }

  lemma EnteredIsOk(op: Operation)
    requires OperationOk(op) && op.phase.Entering?
    ensures OperationOk(op.(phase := Before))
  {
    hide Subsequence;
  }

  /** While a child is under way only its phase changes. */
  lemma StaysInChild(op: Operation, phase: Phase)
    requires OperationOk(op) && InChild(op.phase) && InChild(phase)
    ensures OperationOk(op.(phase := phase))
  {
    hide Subsequence;
  }

  lemma StepsMove(gate: Gate, locks: map<Service, ThreadId>, i: ThreadId, op: Operation, allowed: bool, has: bool, verifies: bool)
    requires MayMove(gate, locks, i, op)
    ensures MovesSteps(Proceed(gate, locks, i, op, allowed, has, verifies))
  {
    hide Subsequence, OutcomeOk, Judge, OperationOk, Plan, ServiceOf, LastStep;
    BoundsOfOk(op);
    match op.phase {
      case Judging(verified) => JudgedIsOk(gate, locks, op, verified);
      case Before => TryingIsOk(op, allowed);
      case Entering => EndedIsOk(op, Busy); EnteredIsOk(op);
      case Leaving(status) => EndedIsOk(op, status);
      case AtGate => StaysInChild(op, AtLock); StaysInChild(op, Judging(false));
      case AtLock => StaysInChild(op, AtAdapter); StaysInChild(op, Ungating(false));
      case AtAdapter => StaysInChild(op, Unlocking(false)); StaysInChild(op, Unlocking(verifies));
      case Unlocking(verified) => StaysInChild(op, Ungating(verified));
      case Ungating(verified) => StaysInChild(op, Judging(verified));
    }
  }

  // ---------- One step of the world ----------

  lemma OkMayMove(w: World, i: ThreadId)
    requires Ok(w) && i in w.running
    ensures MayMove(w.gate, w.locks, i, w.running[i])
  {
    hide OperationOk, Contiguous, AtEndOfLog, OutcomeOk;
    assert w.gate.Held(i) == Holds(w.running[i]);
    if w.running[i].phase.AtLock? {
      LockIsFree(w, i);
    }
  }

  lemma GateStaysOk(w: World, i: ThreadId, m: Move)
    requires GateOk(w) && i in w.running && MovesGate(w.gate, i, m)
    ensures GateOk(Apply(w, i, m))
  {
    hide Holds;
  }

  lemma LocksStayOk(w: World, i: ThreadId, m: Move)
    requires LocksOk(w) && i in w.running && MovesLocks(w.locks, i, w.running[i], m)
    ensures LocksOk(Apply(w, i, m))
  {
    hide ServiceOfOperation;
  }

  lemma SerialsStayOk(w: World, i: ThreadId, m: Move)
    requires SerialsOk(w) && i in w.running && MovesLog(w.running[i], m)
    ensures SerialsOk(Apply(w, i, m))
  {
    hide MayCall;
  }

  /** A call by the holder of the gate leaves the log contiguous, and nobody else is at its end. */
  lemma LogStaysOk(w: World, i: ThreadId, m: Move)
    requires GateOk(w) && SerialsOk(w) && LogOk(w) && i in w.running && MovesLog(w.running[i], m)
    ensures LogOk(Apply(w, i, m))
  {
    var op, next := w.running[i], Apply(w, i, m);
    assert AtEndOfLog(w.log, op);
    forall j | j in next.running
      ensures AtEndOfLog(next.log, next.running[j])
    {
      if j != i {
        OtherStaysAtEnd(w, i, m, j);
      } else {
        MoverStaysAtEnd(w.log, op, m);
      }
    }
    if m.call.Some? {
      CallIsContiguous(w.log, op, m.call.value);
    }
  }

  lemma CallIsContiguous(log: seq<AdapterCall>, op: Operation, call: AdapterCall)
    requires Contiguous(log) && AtEndOfLog(log, op) && MayCall(op) && call.serial == op.serial
    ensures Contiguous(log + [call])
  {
    var after := log + [call];
    forall a, b, c | 0 <= a < b < c < |after| && after[a].serial == after[c].serial
      ensures after[b].serial == after[a].serial
    {
      if c == |log| {
        assert Logged(log, op.serial);
        assert b < |log| - 1 ==> log[a].serial == log[|log| - 1].serial;
      }
    }
  }

  lemma OtherStaysAtEnd(w: World, i: ThreadId, m: Move, j: ThreadId)
    requires GateOk(w) && SerialsOk(w) && LogOk(w) && i in w.running && MovesLog(w.running[i], m)
    requires j in w.running && j != i
    ensures AtEndOfLog(Apply(w, i, m).log, w.running[j])
  {
    var other := w.running[j];
    assert AtEndOfLog(w.log, other);
    if m.call.Some? && MayCall(other) {
      assert Holds(other) > 0 ==> i == j by {
        if Holds(other) > 0 {
          OneHolder(w, i, j);
        }
      }
      LoggedBefore(w.log, m.call.value, other.serial);
    }
  }

  lemma LoggedBefore(log: seq<AdapterCall>, call: AdapterCall, serial: nat)
    requires call.serial != serial
    ensures Logged(log + [call], serial) ==> Logged(log, serial)
  {
    if k :| 0 <= k < |log + [call]| && (log + [call])[k].serial == serial {
      assert log[k].serial == serial;
    }
  }

  lemma MoverStaysAtEnd(log: seq<AdapterCall>, op: Operation, m: Move)
    requires AtEndOfLog(log, op) && MovesLog(op, m) && m.op.Some?
    ensures AtEndOfLog(if m.call.Some? then log + [m.call.value] else log, m.op.value)
  {
  }

  lemma StepsStayOk(w: World, i: ThreadId, m: Move)
    requires StepsOk(w) && i in w.running && MovesSteps(m)
    ensures StepsOk(Apply(w, i, m))
  {
    hide OperationOk, OutcomeOk;
  }

  lemma GoKeepsOk(w: World, i: ThreadId, allowed: bool, has: bool, verifies: bool)
    requires Ok(w) && i in w.running
    ensures Ok(Apply(w, i, Proceed(w.gate, w.locks, i, w.running[i], allowed, has, verifies)))
  {
    OkMayMove(w, i);
    var op := w.running[i];
    var m := Proceed(w.gate, w.locks, i, op, allowed, has, verifies);
    GateMoves(w.gate, w.locks, i, op, allowed, has, verifies);
    LocksMove(w.gate, w.locks, i, op, allowed, has, verifies);
    LogMoves(w.gate, w.locks, i, op, allowed, has, verifies);
    StepsMove(w.gate, w.locks, i, op, allowed, has, verifies);
    hide GateOk, LocksOk, SerialsOk, LogOk, StepsOk, Proceed, MovesGate, MovesLocks, MovesLog, MovesSteps, MayMove;
    GateStaysOk(w, i, m);
    LocksStayOk(w, i, m);
    SerialsStayOk(w, i, m);
    LogStaysOk(w, i, m);
    StepsStayOk(w, i, m);
  }

  lemma BeginGateAndLocks(w: World, i: ThreadId, job: Job)
    requires GateOk(w) && LocksOk(w) && i !in w.running
    ensures GateOk(Step(w, Begin(i, job))) && LocksOk(Step(w, Begin(i, job)))
  {
    hide OperationOk, LastStep;
  }

  lemma BeginSerialsAndLog(w: World, i: ThreadId, job: Job)
    requires SerialsOk(w) && LogOk(w) && i !in w.running
    ensures SerialsOk(Step(w, Begin(i, job))) && LogOk(Step(w, Begin(i, job)))
  {
    hide Contiguous, MayCall;
  }

  lemma BeginSteps(w: World, i: ThreadId, job: Job)
    requires StepsOk(w) && i !in w.running
    ensures StepsOk(Step(w, Begin(i, job)))
  {
    var started := Started(job, w.nextSerial);
    assert OperationOk(started);
    hide OperationOk, OutcomeOk, Started;
  }

  lemma BeginKeepsOk(w: World, i: ThreadId, job: Job)
    requires Ok(w) && i !in w.running
    ensures Ok(Step(w, Begin(i, job)))
  {
    hide GateOk, LocksOk, SerialsOk, LogOk, StepsOk;
    BeginGateAndLocks(w, i, job);
    BeginSerialsAndLog(w, i, job);
    BeginSteps(w, i, job);
  }

  lemma StartIsOk()
    ensures Ok(START)
  {
  }

  lemma {:induction false} RunIsOk(actions: seq<Action>)
    ensures Ok(Run(actions))
  {
    hide Ok, Apply, Proceed;
    if actions == [] {
      StartIsOk();
    } else {
      var w, a := Run(actions[..|actions| - 1]), actions[|actions| - 1];
      RunIsOk(actions[..|actions| - 1]);
      match a {
        case Begin(i, job) =>
          if i !in w.running {
            BeginKeepsOk(w, i, job);
          }
        case Go(i, allowed, has, verifies) =>
          if i in w.running {
            GoKeepsOk(w, i, allowed, has, verifies);
          }
      }
    }
  }

  // ---------- The theorems ----------

  /** In the log of all adapter calls the calls of one operation are contiguous. */
  lemma CallsAreContiguous(actions: seq<Action>)
    ensures Contiguous(Run(actions).log)
  {
    RunIsOk(actions);
    hide Contiguous;
  }

  /** The inner operation-lock BUSY answer is never given. */
  lemma InnerLockIsNeverBusy(actions: seq<Action>)
    ensures !Run(actions).innerBusy
  {
    RunIsOk(actions);
  }

  /** A thread that is not in an operation holds nothing; when no operation runs, the gate is free. */
  lemma GateIsFullyReleased(actions: seq<Action>)
    ensures var w := Run(actions);
            && (forall i :: i !in w.running ==> w.gate.Held(i) == 0)
            && (w.running == map[] ==> w.gate == FREE && w.locks == map[])
  {
    RunIsOk(actions);
    var w := Run(actions);
    assert w.gate.owner.Some? ==> w.gate.Held(w.gate.owner.value) == w.gate.depth > 0;
    assert forall s :: s in w.locks ==> w.locks[s] in w.running;
    hide Run;
  }

  /** What every finished operation has done: steps in the fixed order, and COMPLETED exactly when all are verified. */
  lemma OutcomesTellTheTruth(actions: seq<Action>, k: nat)
    requires k < |Run(actions).outcomes|
    ensures var o := Run(actions).outcomes[k];
            && o.attempted <= Plan(o.job)
            && Subsequence(o.verified, o.attempted)
            && (o.status == Completed <==> o.verified == Plan(o.job))
            && (o.job == AmbientOn ==> o.verified <= o.attempted)
  {
    RunIsOk(actions);
    assert OutcomeOk(Run(actions).outcomes[k]);
    hide Ok;
  }
}
