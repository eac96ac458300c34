/**
 * The DDP output probe (hardware/ddp_output_probe.py): a test frame, then always a blackout frame,
 * then the one close.  Every call of the network, the clock and the test hook may answer anything.
 */
module DdpProbe {
  import opened Wrappers
  import opened DdpPackets
  import opened DdpResults

  const MAX_SEND_ATTEMPTS: nat := 4
  const DEADLINE_SECONDS: real := 2.0

  /** How a call ends: normally, with an operating-system error, another exception, or an interrupt. */
  datatype Signal = Fine | OsError | OtherError | Interrupt

  datatype Reading = Time(t: real) | ClockSignals(signal: Signal)

  datatype Creation = Created | CreatedThenInterrupted | NotCreated(signal: Signal)

  datatype Sent = SentBytes(count: int) | SendSignals(signal: Signal)

  /** A datagram handed to the socket, and whether the socket took it whole. */
  datatype Handed = Handed(packet: seq<Byte>, whole: bool)

  /** Resolved addresses, each usable or not, and each safe or not. */
  datatype Address = Address(destination: Option<int>, isUnsafe: bool)

  /** A call that did not end as it should. */
  datatype Trouble =
    | ClockTrouble(signal: Signal)
    | HookTrouble(signal: Signal)
    | ResolveTrouble(signal: Signal)
    | AcquireTrouble(signal: Signal)
    | CreateTrouble(creation: Creation)
    | TimeoutTrouble(signal: Signal)
    | SendTrouble(sent: Sent)
    | CloseTrouble(signal: Signal)

  /** All times the clock showed, and all troubles. */
  datatype Record = Record(readings: seq<real>, troubles: set<Trouble>) {
    /** No call has met trouble, and the clock has shown no time at or after the deadline. */
    ghost predicate Smooth(deadline: real) {
      troubles == {} && forall i :: 0 <= i < |readings| ==> readings[i] < deadline
    }

    ghost predicate ShowedLate(deadline: real) {
      exists i :: 0 <= i < |readings| && readings[i] >= deadline
    }

    /** Nothing that happened is forgotten. */
    ghost predicate GoesOnTo(later: Record) {
      readings <= later.readings && troubles <= later.troubles
    }

    function With(trouble: Trouble): Record {
      Record(readings, troubles + {trouble})
    }
  }

  /**
   * The surroundings.  Ghost fields record what really happened; the preconditions say what a
   * probe must never do: send on a closed socket, send too often, send after the deadline by its
   * own clock, or close a socket twice or before its blackout.
   */
  class Network {
    const hooked: bool
    const interruptible: bool
    ghost var created: bool
    ghost var blackoutStarted: bool
    ghost var closeTried: bool
    ghost var closed: bool
    ghost var log: seq<Handed>
    ghost var blackoutFrom: nat
    ghost var now: Option<real>
    /** What the clock answered when it was first asked. */
    ghost var firstReading: Option<Reading>
    /** What was seen, the times of the sends, and the addresses resolved. */
    ghost var seen: Record
    ghost var sendTimes: seq<real>
    ghost var resolved: seq<Address>

    constructor (hooked: bool, interruptible: bool)
      ensures this.hooked == hooked && this.interruptible == interruptible
      ensures Untouched()
    {
      this.hooked, this.interruptible, firstReading := hooked, interruptible, None;
      created, blackoutStarted, closeTried, closed, log, blackoutFrom, now := false, false, false, false, [], 0, None;
      seen, sendTimes, resolved := Record([], {}), [], [];
    }

    ghost predicate Untouched()
      reads this
    {
      !created && !blackoutStarted && !closeTried && !closed && log == [] && firstReading.None?
      && seen == Record([], {}) && sendTimes == []
    }

    /** No send happened at or after the deadline. */
    ghost predicate SentInTime(deadline: real)
      reads this`sendTimes
    {
      forall i :: 0 <= i < |sendTimes| ==> sendTimes[i] < deadline
    }

    ghost predicate Open()
      reads this
    {
      created && !closeTried
    }

    method AnySignal() returns (signal: Signal)
      ensures !interruptible ==> signal != Interrupt
    {
      signal := *;
      if signal == Interrupt && !interruptible {
        signal := Fine;
      }
    }

    method ReadClock() returns (reading: Reading)
      modifies this`now, this`seen
      ensures reading.Time? ==> now == Some(reading.t) && seen == old(seen).(readings := old(seen.readings) + [reading.t])
      ensures reading.ClockSignals? ==> reading.signal != Fine && (!interruptible ==> reading.signal != Interrupt)
      ensures reading.ClockSignals? ==> seen == old(seen).With(ClockTrouble(reading.signal))
    {
      var signal := AnySignal();
      if signal == Fine {
        var t: real := *;
        now, seen, reading := Some(t), seen.(readings := seen.readings + [t]), Time(t);
      } else {
        reading, seen := ClockSignals(signal), seen.With(ClockTrouble(signal));
      }
    }

    /** The reading that a probe counts its deadline from. */
    method StartClock() returns (reading: Reading)
      modifies this`now, this`seen, this`firstReading
      ensures firstReading == Some(reading)
      ensures reading.Time? ==> seen == old(seen).(readings := old(seen.readings) + [reading.t])
      ensures reading.ClockSignals? ==> reading.signal != Fine && (!interruptible ==> reading.signal != Interrupt)
    {
      reading := ReadClock();
      firstReading := Some(reading);
    }

    method ControlPoint() returns (signal: Signal)
      modifies this`seen
      ensures !hooked ==> signal == Fine
      ensures !interruptible ==> signal != Interrupt
      ensures seen == if signal == Fine then old(seen) else old(seen).With(HookTrouble(signal))
    {
      if !hooked {
        return Fine;
      }
      signal := AnySignal();
      if signal != Fine {
        seen := seen.With(HookTrouble(signal));
      }
    }

    method ResolveAddresses() returns (addresses: seq<Address>, signal: Signal)
      modifies this`seen, this`resolved
      ensures !interruptible ==> signal != Interrupt
      ensures resolved == addresses
      ensures seen == if signal == Fine then old(seen) else old(seen).With(ResolveTrouble(signal))
    {
      addresses := *;
      signal := AnySignal();
      resolved, seen := addresses, if signal == Fine then seen else seen.With(ResolveTrouble(signal));
    }

    /** Prepares the lease of the socket. */
    method AcquireLease() returns (signal: Signal)
      modifies this`seen
      ensures !interruptible ==> signal != Interrupt
      ensures seen == if signal == Fine then old(seen) else old(seen).With(AcquireTrouble(signal))
    {
      signal := AnySignal();
      if signal != Fine {
        seen := seen.With(AcquireTrouble(signal));
      }
    }

    method CreateSocket() returns (creation: Creation)
      requires !created
      modifies this`created, this`seen
      ensures created == !creation.NotCreated?
      ensures seen == if creation.Created? then old(seen) else old(seen).With(CreateTrouble(creation))
      ensures creation.NotCreated? ==> creation.signal != Fine && (!interruptible ==> creation.signal != Interrupt)
      ensures !interruptible ==> !creation.CreatedThenInterrupted?
    {
      creation := *;
      var signal := AnySignal();
      if !interruptible && creation.CreatedThenInterrupted? {
        creation := Created;
      } else if creation.NotCreated? {
        creation := NotCreated(if signal == Fine then OsError else signal);
      }
      created := !creation.NotCreated?;
      if !creation.Created? {
        seen := seen.With(CreateTrouble(creation));
      }
    }

    method SetTimeout() returns (signal: Signal)
      requires Open()
      modifies this`seen
      ensures !interruptible ==> signal != Interrupt
      ensures seen == if signal == Fine then old(seen) else old(seen).With(TimeoutTrouble(signal))
    {
      signal := AnySignal();
      if signal != Fine {
        seen := seen.With(TimeoutTrouble(signal));
      }
    }

    method SendTo(packet: seq<Byte>, ghost deadline: real) returns (sent: Sent)
      requires Open() && |log| < MAX_SEND_ATTEMPTS
      requires now.Some? && now.value < deadline
      modifies this`log, this`sendTimes, this`seen
      ensures log == old(log) + [Handed(packet, sent == SentBytes(|packet|))]
      ensures sendTimes == old(sendTimes) + [now.value]
      ensures seen == if sent == SentBytes(|packet|) then old(seen) else old(seen).With(SendTrouble(sent))
      ensures sent.SendSignals? ==> sent.signal != Fine && (!interruptible ==> sent.signal != Interrupt)
    {
      var signal := AnySignal();
      var count: int := *;
      sent := if signal == Fine then SentBytes(count) else SendSignals(signal);
      log, sendTimes := log + [Handed(packet, sent == SentBytes(|packet|))], sendTimes + [now.value];
      if sent != SentBytes(|packet|) {
        seen := seen.With(SendTrouble(sent));
      }
    }

    ghost method StartBlackout()
      requires Open()
      modifies this`blackoutStarted, this`blackoutFrom
      ensures blackoutStarted && blackoutFrom == |log|
    {
      blackoutStarted, blackoutFrom := true, |log|;
    }

    method CloseSocket() returns (signal: Signal)
      requires Open() && blackoutStarted
      modifies this`closeTried, this`closed, this`seen
      ensures closeTried && closed == (signal == Fine)
      ensures seen == if signal == Fine then old(seen) else old(seen).With(CloseTrouble(signal))
      ensures !interruptible ==> signal != Interrupt
    {
      signal := AnySignal();
      closeTried, closed := true, signal == Fine;
      seen := if signal == Fine then seen else seen.With(CloseTrouble(signal));
    }
  }

  // ---------- Sending one packet ----------

  datatype SendStatus = SentWhole | PastDeadline | BudgetSpent | FailedSend | PartialSend | UnexpectedSend | InterruptedSend

  /** Why a packet was not sent whole. */
  ghost predicate Explains(seen: Record, deadline: real, status: SendStatus) {
    match status
    case SentWhole => true
    case BudgetSpent => true
    case PastDeadline => seen.ShowedLate(deadline)
    case FailedSend => TimeoutTrouble(OsError) in seen.troubles || SendTrouble(SendSignals(OsError)) in seen.troubles
    case PartialSend => exists count :: SendTrouble(SentBytes(count)) in seen.troubles
    case _ => seen.troubles != {}
  }

  method SendOnce(net: Network, packet: seq<Byte>, deadline: real, attempts: nat) returns (status: SendStatus, after: nat)
    requires net.Open() && |net.log| == attempts
    modifies net`now, net`log, net`sendTimes, net`seen
    ensures old(net.seen).GoesOnTo(net.seen) && (old(net.SentInTime(deadline)) ==> net.SentInTime(deadline))
    ensures net.seen.Smooth(deadline) && attempts < 4 ==> status == SentWhole
    ensures Explains(net.seen, deadline, status)
    ensures |net.log| == after && (after <= MAX_SEND_ATTEMPTS || after == attempts)
    ensures net.log == if after == attempts then old(net.log) else old(net.log) + [Handed(packet, status == SentWhole)]
    ensures status == SentWhole ==> after == attempts + 1
    ensures status == BudgetSpent ==> attempts >= MAX_SEND_ATTEMPTS
    ensures !net.interruptible ==> status != InterruptedSend
  {
    after := attempts;
    var reading := net.ReadClock();
    if reading.ClockSignals? {
      return if reading.signal == Interrupt then InterruptedSend else UnexpectedSend, after;
    }
    if deadline - reading.t <= 0.0 {
      assert net.seen.readings[|old(net.seen.readings)|] == reading.t;
      return PastDeadline, after;
    }
    if attempts >= MAX_SEND_ATTEMPTS {
      return BudgetSpent, after;
    }
    var timeout := net.SetTimeout();
    match timeout {
      case Interrupt => return InterruptedSend, after;
      case OsError => return FailedSend, after;
      case OtherError => return UnexpectedSend, after;
      case Fine =>
    }
    after := attempts + 1;
    var sent := net.SendTo(packet, deadline);
    match sent {
      case SendSignals(Interrupt) => return InterruptedSend, after;
      case SendSignals(OsError) => return FailedSend, after;
      case SendSignals(_) => return UnexpectedSend, after;
      case SentBytes(count) => return if count != |packet| then PartialSend else SentWhole, after;
    }
  }

  function TestReason(status: SendStatus): Reason {
    match status
    case PastDeadline => TestDeadline
    case FailedSend => TestSendFailed
    case PartialSend => TestPartialSend
    case _ => Unexpected
  }

  function BlackoutReason(status: SendStatus): Reason {
    match status
    case PastDeadline => BlackoutDeadline
    case FailedSend => BlackoutSendFailed
    case PartialSend => BlackoutPartialSend
    case _ => Unexpected
  }

  // ---------- What happens on the socket ----------

  /** Exactly the first packets of a plan were handed over, one after the other. */
  predicate Begins(log: seq<Handed>, packets: seq<seq<Byte>>) {
    |log| <= |packets| && forall i :: 0 <= i < |log| ==> log[i].packet == packets[i]
  }

  /** Packets of a plan were handed over in its order, some perhaps left out. */
  predicate TakenFrom(log: seq<Handed>, packets: seq<seq<Byte>>) {
    || log == []
    || (packets != [] && TakenFrom(log, packets[..|packets| - 1]))
    || (packets != [] && log[|log| - 1].packet == packets[|packets| - 1]
        && TakenFrom(log[..|log| - 1], packets[..|packets| - 1]))
  }

  /** How many datagrams the socket took whole. */
  function Wholes(log: seq<Handed>): nat {
    if log == [] then 0 else Wholes(log[..|log| - 1]) + if log[|log| - 1].whole then 1 else 0
  }

  lemma NothingTaken(packets: seq<seq<Byte>>)
    ensures TakenFrom([], packets[..0]) && Wholes([]) == 0
  {
  }

  lemma TakenStays(log: seq<Handed>, packets: seq<seq<Byte>>, i: nat)
    requires i < |packets| && TakenFrom(log, packets[..i])
    ensures TakenFrom(log, packets[..i + 1])
  {
    assert packets[..i + 1][..i] == packets[..i];
  }

  lemma {:induction false} TakenFromHead(log: seq<Handed>, packets: seq<seq<Byte>>, i: nat)
    requires i <= |packets| && TakenFrom(log, packets[..i])
    ensures TakenFrom(log, packets)
    decreases |packets| - i
  {
    if i == |packets| {
      assert packets[..i] == packets;
    } else {
      TakenStays(log, packets, i);
      TakenFromHead(log, packets, i + 1);
    }
  }

  lemma TakenGrows(log: seq<Handed>, packets: seq<seq<Byte>>, i: nat, whole: bool)
    requires i < |packets| && TakenFrom(log, packets[..i])
    ensures TakenFrom(log + [Handed(packets[i], whole)], packets[..i + 1])
    ensures Wholes(log + [Handed(packets[i], whole)]) == Wholes(log) + if whole then 1 else 0
  {
    assert packets[..i + 1][..i] == packets[..i];
    assert (log + [Handed(packets[i], whole)])[..|log|] == log;
  }

  /** As many whole datagrams as packets: then it was every packet, whole, in order. */
  lemma {:induction false} AllTaken(log: seq<Handed>, packets: seq<seq<Byte>>)
    requires TakenFrom(log, packets)
    ensures Wholes(log) <= |log| <= |packets|
    ensures Wholes(log) == |packets| ==> forall i :: 0 <= i < |packets| ==> log[i] == Handed(packets[i], true)
    decreases |packets|
  {
    if log != [] {
      var rest := packets[..|packets| - 1];
      if TakenFrom(log, rest) {
        AllTaken(log, rest);
      } else {
        AllTaken(log[..|log| - 1], rest);
      }
    }
  }

  /** A reason names what happened. */
  ghost predicate Justified(seen: Record, deadline: real, reason: Reason) {
    match reason
    case TestDeadline => seen.ShowedLate(deadline)
    case BlackoutDeadline => seen.ShowedLate(deadline)
    case TestSendFailed => Explains(seen, deadline, FailedSend)
    case BlackoutSendFailed => Explains(seen, deadline, FailedSend)
    case TestPartialSend => Explains(seen, deadline, PartialSend)
    case BlackoutPartialSend => Explains(seen, deadline, PartialSend)
    case CleanupUnconfirmed => exists signal :: CloseTrouble(signal) in seen.troubles
    case Unexpected => !seen.Smooth(deadline)
    case _ => true
  }

  /** What happened stays a justification. */
  lemma StaysJustified(before: Record, after: Record, deadline: real, reason: Reason)
    requires before.GoesOnTo(after) && Justified(before, deadline, reason)
    ensures Justified(after, deadline, reason)
  {
    if before.ShowedLate(deadline) {
      var i :| 0 <= i < |before.readings| && before.readings[i] >= deadline;
      assert after.readings[i] >= deadline;
    }
    if after.Smooth(deadline) {
      WasSmooth(before, after, deadline);
    }
  }

  lemma WasSmooth(before: Record, after: Record, deadline: real)
    requires before.GoesOnTo(after) && after.Smooth(deadline)
    ensures before.Smooth(deadline)
  {
    assert forall i :: 0 <= i < |before.readings| ==> before.readings[i] == after.readings[i];
  }

  /** Exactly these packets were handed over and taken whole. */
  predicate AllWhole(log: seq<Handed>, packets: seq<seq<Byte>>) {
    |log| == |packets| && forall i :: 0 <= i < |log| ==> log[i] == Handed(packets[i], true)
  }

  lemma StatusJustifies(seen: Record, deadline: real, status: SendStatus)
    requires Explains(seen, deadline, status) && status != SentWhole && status != BudgetSpent
    ensures Justified(seen, deadline, TestReason(status)) && Justified(seen, deadline, BlackoutReason(status))
  {
  }

  class SocketUse {
    var attempts: nat
    var testSent: nat
    var blackoutSent: nat
    var testReason: Option<Reason>
    var blackoutReason: Option<Reason>
    var blackoutAttempted: bool
    var interruptDeferred: bool

    constructor ()
      ensures attempts == testSent == blackoutSent == 0 && testReason.None? && blackoutReason.None?
      ensures !blackoutAttempted && !interruptDeferred
    {
      attempts, testSent, blackoutSent, testReason, blackoutReason := 0, 0, 0, None, None;
      blackoutAttempted, interruptDeferred := false, false;
    }

    /** The test frame was sent whole unless something went wrong, and its reason says what. */
    ghost predicate TestTold(packets: seq<seq<Byte>>, net: Network, deadline: real)
      reads this, net
    {
      && (testReason.Some? ==> Justified(net.seen, deadline, testReason.value))
      && (net.seen.Smooth(deadline) ==>
            testReason.None? && !interruptDeferred && testSent == |packets| && AllWhole(net.log, packets))
    }

    /** So far nothing is wrong with the blackout frame, unless something went wrong. */
    ghost predicate BlackoutTold(net: Network, deadline: real)
      reads this, net
    {
      && (blackoutReason.Some? ==> Justified(net.seen, deadline, blackoutReason.value))
      && (net.seen.Smooth(deadline) ==> blackoutReason.None? && !interruptDeferred)
    }

    /** Only the test frame can have failed so far, and it tells why it is incomplete. */
    ghost predicate TestAccounted(planned: nat, net: Network)
      reads this
    {
      && testSent <= planned
      && (testReason.Some? ==> IsTestReason(testReason.value))
      && (!net.hooked && !net.interruptible ==> !interruptDeferred && (testSent == planned <==> testReason.None?))
    }

    /** The test packets went out in order, and those counted as sent were taken whole. */
    ghost predicate TestLogged(packets: seq<seq<Byte>>, log: seq<Handed>)
      reads this
    {
      Begins(log, packets) && testSent <= |log| && forall i :: 0 <= i < testSent ==> log[i].whole
    }

    /** The blackout packets went out in order, and exactly those counted as sent were taken whole. */
    ghost predicate BlackoutLogged(packets: seq<seq<Byte>>, log: seq<Handed>)
      reads this
    {
      TakenFrom(log, packets) && Wholes(log) == blackoutSent
    }

    /** The blackout frame tells why it is incomplete. */
    ghost predicate BlackoutAccounted(planned: nat, net: Network)
      reads this
    {
      && blackoutSent <= planned
      && (blackoutReason.Some? ==> IsBlackoutReason(blackoutReason.value))
      && (!net.hooked && !net.interruptible ==> !interruptDeferred && (blackoutSent == planned <==> blackoutReason.None?))
    }
  }

  predicate IsTestReason(reason: Reason) {
    reason == TestDeadline || reason == TestSendFailed || reason == TestPartialSend || reason == Unexpected
  }

  predicate IsBlackoutReason(reason: Reason) {
    reason == BlackoutDeadline || reason == BlackoutSendFailed || reason == BlackoutPartialSend || reason == Unexpected
  }

  /** One packet of the test frame; `goOn` means that it was sent whole and counted. */
  method SendForTest(use: SocketUse, net: Network, deadline: real, packet: seq<Byte>) returns (goOn: bool)
    requires net.Open() && |net.log| == use.attempts < MAX_SEND_ATTEMPTS && use.testReason.None? && !use.interruptDeferred
    modifies use`attempts, use`testSent, use`testReason, use`interruptDeferred, net`now, net`log, net`sendTimes, net`seen
    ensures |net.log| == use.attempts && old(net.seen).GoesOnTo(net.seen)
    ensures old(net.SentInTime(deadline)) ==> net.SentInTime(deadline)
    ensures goOn ==>
              && use.testReason.None? && !use.interruptDeferred && use.testSent == old(use.testSent) + 1
              && net.log == old(net.log) + [Handed(packet, true)]
    ensures !goOn ==>
              && use.testSent == old(use.testSent) && !net.seen.Smooth(deadline)
              && (net.log == old(net.log) || exists whole :: net.log == old(net.log) + [Handed(packet, whole)])
              && (use.testReason.Some? ==> IsTestReason(use.testReason.value) && Justified(net.seen, deadline, use.testReason.value))
              && (!net.hooked && !net.interruptible ==> use.testReason.Some? && !use.interruptDeferred)
  {
    hide Explains, Record.Smooth, Network.SentInTime;
    var status, attempts := SendOnce(net, packet, deadline, use.attempts);
    assert status != BudgetSpent;
    use.attempts := attempts;
    if status == InterruptedSend {
      use.interruptDeferred := true;
      return false;
    }
    if status != SentWhole {
      StatusJustifies(net.seen, deadline, status);
      use.testReason := Some(TestReason(status));
      return false;
    }
    ghost var before := net.seen;
    var hook := net.ControlPoint();
    TroubleIsRough(before, HookTrouble(hook), deadline);
    if hook == Interrupt {
      use.interruptDeferred := true;
      return false;
    }
    if hook != Fine {
      use.testReason := Some(Unexpected);
      return false;
    }
    use.testSent := use.testSent + 1;
    return true;
  }

  method RunTestPhase(use: SocketUse, net: Network, deadline: real, packets: seq<seq<Byte>>)
    requires net.Open() && |net.log| == use.attempts == use.testSent == 0 && |packets| <= MAX_DATAGRAMS
    requires use.testReason.None? && !use.interruptDeferred
    modifies use`attempts, use`testSent, use`testReason, use`interruptDeferred, net`now, net`log, net`sendTimes, net`seen
    ensures |net.log| == use.attempts && use.TestAccounted(|packets|, net) && use.TestLogged(packets, net.log)
    ensures use.TestTold(packets, net, deadline) && old(net.seen).GoesOnTo(net.seen)
    ensures old(net.SentInTime(deadline)) ==> net.SentInTime(deadline)
  {
    hide Justified, Record.Smooth, Network.SentInTime;
    var i := 0;
    while i < |packets|
      invariant 0 <= i <= |packets| && use.attempts == use.testSent == i == |net.log| && use.TestLogged(packets, net.log)
      invariant use.testReason.None? && !use.interruptDeferred
      invariant old(net.seen).GoesOnTo(net.seen) && (old(net.SentInTime(deadline)) ==> net.SentInTime(deadline))
    {
      var goOn := SendForTest(use, net, deadline, packets[i]);
      if !goOn {
        return;
      }
      i := i + 1;
    }
  }

  /** The test frame, after the hook that follows the acquisition of the socket. */
  method UseSocket(use: SocketUse, net: Network, deadline: real, packets: seq<seq<Byte>>)
    requires net.Open() && |net.log| == use.attempts == use.testSent == 0 && 1 <= |packets| <= MAX_DATAGRAMS
    requires use.testReason.None? && !use.interruptDeferred
    modifies use`attempts, use`testSent, use`testReason, use`interruptDeferred, net`now, net`log, net`sendTimes, net`seen
    ensures |net.log| == use.attempts && use.TestAccounted(|packets|, net) && use.TestLogged(packets, net.log)
    ensures use.TestTold(packets, net, deadline) && old(net.seen).GoesOnTo(net.seen)
    ensures old(net.SentInTime(deadline)) ==> net.SentInTime(deadline)
  {
    hide Explains, Record.Smooth, Network.SentInTime;
    var hook := net.ControlPoint();
    TroubleIsRough(old(net.seen), HookTrouble(hook), deadline);
    if hook == Interrupt {
      use.interruptDeferred := true;
    } else if hook != Fine {
      use.testReason := Some(Unexpected);
    } else {
      RunTestPhase(use, net, deadline, packets);
    }
  }

  lemma TroubleIsRough(before: Record, trouble: Trouble, deadline: real)
    ensures !before.With(trouble).Smooth(deadline) && before.GoesOnTo(before.With(trouble))
  {
  }

  /** A hook during cleanup: an interrupt is deferred, another error is the blackout's reason. */
  method CleanupHook(use: SocketUse, net: Network, ghost deadline: real)
    modifies use`interruptDeferred, use`blackoutReason, net`seen
    ensures old(net.seen).GoesOnTo(net.seen)
    ensures old(use.BlackoutTold(net, deadline)) ==> use.BlackoutTold(net, deadline)
    ensures old(use.interruptDeferred) ==> use.interruptDeferred
    ensures old(use.blackoutReason).Some? ==> use.blackoutReason == old(use.blackoutReason)
    ensures use.blackoutReason == old(use.blackoutReason) || use.blackoutReason == Some(Unexpected)
    ensures !net.hooked ==> use.interruptDeferred == old(use.interruptDeferred) && use.blackoutReason == old(use.blackoutReason)
  {
    hide Record.Smooth, Explains;
    var hook := net.ControlPoint();
    if hook != Fine {
      TroubleIsRough(old(net.seen), HookTrouble(hook), deadline);
      if use.blackoutReason.Some? && Justified(old(net.seen), deadline, use.blackoutReason.value) {
        StaysJustified(old(net.seen), net.seen, deadline, use.blackoutReason.value);
      }
    }
    if hook == Interrupt {
      use.interruptDeferred := true;
    } else if hook != Fine && use.blackoutReason.None? {
      use.blackoutReason := Some(Unexpected);
    }
  }

  /** One packet of the blackout, after those in `part`; `stop` means that the deadline has passed. */
  method SendForBlackout(
    use: SocketUse, net: Network, deadline: real, packets: seq<seq<Byte>>, i: nat, ghost part: seq<Handed>)
    returns (stop: bool, ghost taken: seq<Handed>)
    requires net.Open() && |net.log| == use.attempts < MAX_SEND_ATTEMPTS && i < |packets|
    requires TakenFrom(part, packets[..i]) && Wholes(part) == use.blackoutSent
    modifies use`attempts, use`blackoutSent, use`blackoutReason, use`interruptDeferred, net`now, net`log, net`sendTimes, net`seen
    ensures old(net.seen).GoesOnTo(net.seen) && (old(net.SentInTime(deadline)) ==> net.SentInTime(deadline))
    ensures old(use.BlackoutTold(net, deadline)) ==> use.BlackoutTold(net, deadline)
    ensures net.seen.Smooth(deadline) ==> use.blackoutSent == old(use.blackoutSent) + 1
    ensures |net.log| == use.attempts && net.log == old(net.log) + taken && |taken| <= 1
    ensures TakenFrom(part + taken, packets[..i + 1]) && Wholes(part + taken) == use.blackoutSent
    ensures old(use.blackoutSent) <= use.blackoutSent <= old(use.blackoutSent) + 1
    ensures old(use.blackoutReason).Some? ==> use.blackoutReason == old(use.blackoutReason)
    ensures old(use.blackoutReason).None? && use.blackoutReason.Some? ==> IsBlackoutReason(use.blackoutReason.value)
    ensures old(use.interruptDeferred) ==> use.interruptDeferred
    ensures !net.interruptible ==>
              && use.interruptDeferred == old(use.interruptDeferred)
              && (old(use.blackoutReason).None? ==> (use.blackoutReason.None? <==> use.blackoutSent == old(use.blackoutSent) + 1))
    ensures stop ==> use.blackoutSent == old(use.blackoutSent) && use.blackoutReason.Some?
  {
    hide TakenFrom, Wholes;
    var status, attempts := SendOnce(net, packets[i], deadline, use.attempts);
    assert status != BudgetSpent;
    if status != SentWhole {
      StatusJustifies(net.seen, deadline, status);
    }
    if use.blackoutReason.Some? && Justified(old(net.seen), deadline, use.blackoutReason.value) {
      StaysJustified(old(net.seen), net.seen, deadline, use.blackoutReason.value);
    }
    if net.seen.Smooth(deadline) {
      WasSmooth(old(net.seen), net.seen, deadline);
    }
    taken := if attempts > use.attempts then [Handed(packets[i], status == SentWhole)] else [];
    TakenStays(part, packets, i);
    TakenGrows(part, packets, i, status == SentWhole);
    assert part + [] == part;
    use.attempts := attempts;
    if status == InterruptedSend {
      use.interruptDeferred := true;
    } else if status == SentWhole {
      use.blackoutSent := use.blackoutSent + 1;
    } else if use.blackoutReason.None? {
      use.blackoutReason := Some(BlackoutReason(status));
    }
    stop := status == PastDeadline || status == BudgetSpent;
  }

  lemma AfterBefore(before: seq<Handed>, part: seq<Handed>, taken: seq<Handed>)
    ensures (before + part) + taken == before + (part + taken)
    ensures (before + part)[|before|..] == part && before <= before + part
  {
  }

  /** The blackout goes on after a failed packet, unless the deadline has passed. */
  method RunBlackoutPhase(use: SocketUse, net: Network, deadline: real, packets: seq<seq<Byte>>)
    requires net.Open() && |net.log| == use.attempts <= MAX_DATAGRAMS && 1 <= |packets| <= MAX_DATAGRAMS
    requires use.blackoutSent == 0 && use.blackoutReason.None?
    requires !net.hooked && !net.interruptible ==> !use.interruptDeferred
    requires net.seen.Smooth(deadline) ==> !use.interruptDeferred
    modifies use`attempts, use`blackoutSent, use`blackoutReason, use`blackoutAttempted, use`interruptDeferred
    modifies net`now, net`log, net`sendTimes, net`seen, net`blackoutStarted, net`blackoutFrom
    ensures old(net.seen).GoesOnTo(net.seen) && (old(net.SentInTime(deadline)) ==> net.SentInTime(deadline))
    ensures use.BlackoutTold(net, deadline) && (net.seen.Smooth(deadline) ==> use.blackoutSent == |packets|)
    ensures net.blackoutStarted && use.blackoutAttempted && net.blackoutFrom == |old(net.log)|
    ensures |net.log| <= MAX_SEND_ATTEMPTS && old(net.log) <= net.log
    ensures use.BlackoutAccounted(|packets|, net) && use.BlackoutLogged(packets, net.log[net.blackoutFrom..])
    ensures old(use.interruptDeferred) ==> use.interruptDeferred
  {
    hide TakenFrom, Wholes, Justified, Record.Smooth, Network.SentInTime;
    NothingTaken(packets);
    ghost var before, part: seq<Handed> := net.log, [];
    use.blackoutAttempted := true;
    net.StartBlackout();
    CleanupHook(use, net, deadline);
    var i := 0;
    var stop := false;
    while i < |packets| && !stop
      invariant 0 <= i <= |packets| && |net.log| == use.attempts <= MAX_DATAGRAMS + i
      invariant net.log == before + part && net.blackoutFrom == |before|
      invariant TakenFrom(part, packets[..i]) && Wholes(part) == use.blackoutSent
      invariant use.blackoutSent <= i && net.blackoutStarted && use.blackoutAttempted
      invariant use.blackoutReason.Some? ==> IsBlackoutReason(use.blackoutReason.value)
      invariant !net.hooked && !net.interruptible ==>
                  !use.interruptDeferred && (use.blackoutSent == i <==> use.blackoutReason.None?)
      invariant old(use.interruptDeferred) ==> use.interruptDeferred
      invariant stop ==> use.blackoutSent < i
      invariant old(net.seen).GoesOnTo(net.seen) && (old(net.SentInTime(deadline)) ==> net.SentInTime(deadline))
      invariant use.BlackoutTold(net, deadline) && (net.seen.Smooth(deadline) ==> use.blackoutSent == i)
    {
      ghost var taken;
      ghost var unsent := net.seen;
      stop, taken := SendForBlackout(use, net, deadline, packets, i, part);
      if net.seen.Smooth(deadline) {
        WasSmooth(unsent, net.seen, deadline);
      }
      AfterBefore(before, part, taken);
      part := part + taken;
      if !stop && i < |packets| - 1 {
        ghost var sent := net.seen;
        CleanupHook(use, net, deadline);
        if net.seen.Smooth(deadline) {
          WasSmooth(sent, net.seen, deadline);
        }
      }
      i := i + 1;
    }
    TakenFromHead(part, packets, i);
    AfterBefore(before, part, []);
  }

  // ---------- Owning the socket ----------

  /** How the body that used the socket, and the lease around it, ended. */
  datatype Exit = Normally | WithError(wasOsError: bool) | WithInterrupt

  /** The hook before the close, and the one close. */
  method CloseAfterHook(use: SocketUse, net: Network, ghost deadline: real) returns (interrupted: bool, closed: bool)
    requires net.Open() && net.blackoutStarted && use.BlackoutTold(net, deadline)
    modifies use`interruptDeferred, use`blackoutReason, net`seen, net`closeTried, net`closed
    ensures old(net.seen).GoesOnTo(net.seen) && net.closeTried && closed == net.closed
    ensures use.BlackoutTold(net, deadline) && (!closed ==> Justified(net.seen, deadline, CleanupUnconfirmed))
    ensures old(use.interruptDeferred) ==> use.interruptDeferred
    ensures old(use.blackoutReason).Some? ==> use.blackoutReason == old(use.blackoutReason)
    ensures use.blackoutReason == old(use.blackoutReason) || use.blackoutReason == Some(Unexpected)
    ensures !net.hooked ==> use.interruptDeferred == old(use.interruptDeferred) && use.blackoutReason == old(use.blackoutReason)
    ensures net.seen.Smooth(deadline) ==> closed && !interrupted
    ensures !net.interruptible ==> !interrupted
  {
    hide Explains, Record.Smooth;
    CleanupHook(use, net, deadline);
    ghost var unclosed := net.seen;
    var signal := net.CloseSocket();
    TroubleIsRough(unclosed, CloseTrouble(signal), deadline);
    interrupted, closed := signal == Interrupt, signal == Fine;
    if use.blackoutReason.Some? {
      StaysJustified(unclosed, net.seen, deadline, use.blackoutReason.value);
    }
    if !closed {
      assert CloseTrouble(signal) in net.seen.troubles;
    }
  }

  /**
   * The end of the lease: the blackout, then the one close, whatever happened before.  Errors of
   * the body are suppressed; an interrupt, from wherever, is passed on.
   */
  method FinishLease(use: SocketUse, net: Network, deadline: real, packets: seq<seq<Byte>>, body: Signal)
    returns (interrupted: bool, closed: bool)
    requires net.Open() && |net.log| == use.attempts <= MAX_DATAGRAMS && 1 <= |packets| <= MAX_DATAGRAMS
    requires use.blackoutSent == 0 && use.blackoutReason.None?
    requires !net.hooked && !net.interruptible ==> !use.interruptDeferred && body == Fine
    requires use.testReason.Some? ==>
               IsTestReason(use.testReason.value) && Justified(net.seen, deadline, use.testReason.value)
    requires net.seen.Smooth(deadline) ==> !use.interruptDeferred && body == Fine
    modifies use, net`now, net`log, net`sendTimes, net`seen, net`blackoutStarted, net`blackoutFrom, net`closeTried, net`closed
    ensures old(net.seen).GoesOnTo(net.seen) && (old(net.SentInTime(deadline)) ==> net.SentInTime(deadline))
    ensures use.testReason.Some? ==> Justified(net.seen, deadline, use.testReason.value)
    ensures use.blackoutReason.Some? ==> Justified(net.seen, deadline, use.blackoutReason.value)
    ensures !closed ==> Justified(net.seen, deadline, CleanupUnconfirmed)
    ensures net.seen.Smooth(deadline) ==> !interrupted && closed && use.blackoutReason.None? && use.blackoutSent == |packets|
    ensures net.created && net.blackoutStarted && net.closeTried && |net.log| <= MAX_SEND_ATTEMPTS
    ensures old(net.log) <= net.log && net.blackoutFrom == |old(net.log)|
    ensures use.BlackoutLogged(packets, net.log[net.blackoutFrom..])
    ensures closed == net.closed && use.blackoutAttempted && use.testSent == old(use.testSent)
    ensures use.testReason ==
              if (body == OsError || body == OtherError) && old(use.testReason).None? then Some(Unexpected) else old(use.testReason)
    ensures use.BlackoutAccounted(|packets|, net)
    ensures !net.hooked && !net.interruptible ==> !interrupted
  {
    hide Explains, Record.Smooth, Network.SentInTime;
    if body == Interrupt {
      use.interruptDeferred := true;
    } else if body != Fine && use.testReason.None? {
      use.testReason := Some(Unexpected);
    }
    ghost var begun, reason := net.seen, use.testReason;
    RunBlackoutPhase(use, net, deadline, packets);
    ghost var dark := net.seen;
    var interruptedClosing;
    interruptedClosing, closed := CloseAfterHook(use, net, deadline);
    interrupted := use.interruptDeferred || body == Interrupt || interruptedClosing;
    SeenThroughout(begun, dark, net.seen, deadline);
    if reason.Some? {
      StaysJustified(begun, net.seen, deadline, reason.value);
    }
  }

  lemma SeenThroughout(a: Record, b: Record, c: Record, deadline: real)
    requires a.GoesOnTo(b) && b.GoesOnTo(c)
    ensures a.GoesOnTo(c) && (c.Smooth(deadline) ==> a.Smooth(deadline) && b.Smooth(deadline))
  {
    if c.Smooth(deadline) {
      WasSmooth(a, c, deadline);
      WasSmooth(b, c, deadline);
    }
  }

  // ---------- Results ----------

  function PreSocketResult(reason: Reason, leds: int, packets: int): ProbeResult {
    ProbeResult(reason, false, false, Some(leds), leds * 3, packets, 0, packets, 0, false, false, false, false, false)
  }

  /** The result when the probe cannot even start; it names no frame. */
  const NO_RESULT := ProbeResult(Unexpected, false, false, None, 0, 0, 0, 0, 0, false, false, false, false, false)

  function FinalReason(
    testReason: Option<Reason>, blackoutReason: Option<Reason>, testCompleted: bool, blackoutCompleted: bool, closed: bool): Reason
  {
    if blackoutReason.Some? then blackoutReason.value
    else if testCompleted && blackoutCompleted && !closed then CleanupUnconfirmed
    else if testReason.Some? && blackoutCompleted then testReason.value
    else if testCompleted && blackoutCompleted && closed then Validated
    else Unexpected
  }

  function SocketResult(
    testReason: Option<Reason>, blackoutReason: Option<Reason>, testSent: int, blackoutSent: int,
    attempted: bool, closed: bool, leds: int, planned: int): ProbeResult
  {
    var testCompleted, blackoutCompleted := testSent == planned, blackoutSent == planned;
    ProbeResult(
      FinalReason(testReason, blackoutReason, testCompleted, blackoutCompleted, closed),
      true, closed, Some(leds), leds * 3, planned, testSent, planned, blackoutSent,
      testCompleted, attempted, blackoutCompleted, closed, false)
  }

  lemma SocketResultIsConsistent(
    testReason: Option<Reason>, blackoutReason: Option<Reason>, testSent: nat, blackoutSent: nat, closed: bool, leds: int, planned: int)
    requires 1 <= leds <= MAX_LEDS && planned == ExpectedPackets(leds * 3)
    requires testSent <= planned && blackoutSent <= planned
    requires testReason.Some? ==> IsTestReason(testReason.value)
    requires blackoutReason.Some? ==> IsBlackoutReason(blackoutReason.value)
    requires testReason.None? <==> testSent == planned
    requires blackoutReason.None? <==> blackoutSent == planned
    ensures Consistent(SocketResult(testReason, blackoutReason, testSent, blackoutSent, true, closed, leds, planned), leds)
  {
  }

  function Destinations(addresses: seq<Address>): set<int> {
    set i | 0 <= i < |addresses| && addresses[i].destination.Some? :: addresses[i].destination.value
  }

  /** Whether there is exactly one destination and no unsafe address; otherwise the reason why not. */
  function Resolve(addresses: seq<Address>): (reason: Option<Reason>)
    ensures reason.None? ==> |Destinations(addresses)| == 1
  {
    if exists i :: 0 <= i < |addresses| && addresses[i].isUnsafe then Some(NotUnicast)
    else if Destinations(addresses) == {} then Some(ResolutionFailed)
    else if |Destinations(addresses)| != 1 then Some(ResolutionAmbiguous)
    else None
  }

  /** No address is unsafe, and all that can be used are one. */
  ghost predicate OneSafeTarget(addresses: seq<Address>) {
    && (forall a :: a in addresses ==> !a.isUnsafe)
    && exists d :: TheTarget(addresses, d)
  }

  ghost predicate TheTarget(addresses: seq<Address>, target: int) {
    && (exists a :: a in addresses && a.destination == Some(target))
    && forall a :: a in addresses && a.destination.Some? ==> a.destination.value == target
  }

  lemma SomeMember<T>(s: set<T>) returns (x: T)
    requires s != {}
    ensures x in s
  {
    x :| x in s;
  }

  lemma OneTargetOneDestination(addresses: seq<Address>)
    ensures |Destinations(addresses)| == 1 <==> exists d :: TheTarget(addresses, d)
  {
    var found := Destinations(addresses);
    if |found| == 1 {
      var d := SomeMember(found);
      forall a | a in addresses && a.destination.Some?
        ensures a.destination.value == d
      {
        assert a.destination.value in found;
        assert |found - {d}| == 0;
      }
      assert TheTarget(addresses, d);
    }
    if exists d :: TheTarget(addresses, d) {
      var d :| TheTarget(addresses, d);
      assert found == {d};
    }
  }

  lemma DestinationsAreListed(addresses: seq<Address>)
    ensures forall a :: a in addresses && a.destination.Some? ==> a.destination.value in Destinations(addresses)
  {
  }

  lemma ResolvedExactly(addresses: seq<Address>)
    ensures Resolve(addresses).None? <==> OneSafeTarget(addresses)
    ensures Resolve(addresses) == Some(NotUnicast) <==> exists a :: a in addresses && a.isUnsafe
    ensures Resolve(addresses) == Some(ResolutionFailed) ==> forall a :: a in addresses ==> a.destination.None?
    ensures Resolve(addresses) == Some(ResolutionAmbiguous) ==>
              exists a, b :: a in addresses && b in addresses && a.destination.Some? && b.destination.Some? && a.destination != b.destination
  {
    OneTargetOneDestination(addresses);
    assert forall i :: 0 <= i < |addresses| ==> addresses[i] in addresses;
    if Resolve(addresses) == Some(ResolutionFailed) {
      DestinationsAreListed(addresses);
    }
    if Resolve(addresses) == Some(ResolutionAmbiguous) {
      var d := SomeMember(Destinations(addresses));
      var a :| a in addresses && a.destination == Some(d);
      assert !TheTarget(addresses, d);
    }
  }

  /** A refusal before there is a socket names what happened. */
  ghost predicate RefusalHolds(reason: Reason, addresses: seq<Address>, seen: Record) {
    match reason
    case NotUnicast => exists a :: a in addresses && a.isUnsafe
    case ResolutionAmbiguous =>
      exists a, b :: a in addresses && b in addresses && a.destination.Some? && b.destination.Some? && a.destination != b.destination
    case ResolutionFailed =>
      (exists signal :: ResolveTrouble(signal) in seen.troubles) || forall a :: a in addresses ==> a.destination.None?
    case SocketCreationFailed => AcquireTrouble(OsError) in seen.troubles || CreateTrouble(NotCreated(OsError)) in seen.troubles
    case _ => reason == Unexpected && seen.troubles != {}
  }

  /** A run ends with a result, or an interrupt is passed on to the caller. */
  datatype Ended = Reported(result: ProbeResult) | Interrupted

  /** Resolution and the acquisition of the lease: `None` means that the socket can be created. */
  method Prepare(net: Network, leds: int, packets: int) returns (early: Option<Ended>)
    modifies net`seen, net`resolved
    ensures old(net.seen).GoesOnTo(net.seen) && net.seen.readings == old(net.seen).readings
    ensures !net.interruptible ==> early != Some(Interrupted)
    ensures early.Some? && early.value.Reported? ==>
              exists reason ::
                && early.value.result == PreSocketResult(reason, leds, packets)
                && reason in {ResolutionFailed, ResolutionAmbiguous, NotUnicast, SocketCreationFailed, Unexpected}
    ensures early.Some? && early.value.Reported? ==> RefusalHolds(early.value.result.reason, net.resolved, net.seen)
    ensures early.None? ==> OneSafeTarget(net.resolved)
    ensures net.seen.troubles == {} && OneSafeTarget(net.resolved) ==> early.None?
  {
    hide Resolve, OneSafeTarget;
    var addresses, resolving := net.ResolveAddresses();
    if resolving == Interrupt {
      return Some(Interrupted);
    }
    var refusal := if resolving != Fine then Some(ResolutionFailed) else Resolve(addresses);
    ResolvedExactly(addresses);
    if refusal.Some? {
      assert resolving != Fine ==> ResolveTrouble(resolving) in net.seen.troubles;
      RefusalIsKnown(addresses);
      return Some(Reported(PreSocketResult(refusal.value, leds, packets)));
    }
    var acquiring := net.AcquireLease();
    if acquiring == Interrupt {
      return Some(Interrupted);
    }
    if acquiring != Fine {
      return Some(Reported(PreSocketResult(if acquiring == OsError then SocketCreationFailed else Unexpected, leds, packets)));
    }
    return None;
  }

  lemma RefusalIsKnown(addresses: seq<Address>)
    ensures Resolve(addresses).Some? ==> Resolve(addresses).value in {ResolutionFailed, ResolutionAmbiguous, NotUnicast}
  {
  }

  /** The test packets went out first, then the blackout packets, and the counts tell how many were taken whole. */
  predicate SessionLogged(
    log: seq<Handed>, blackoutFrom: nat, test: seq<seq<Byte>>, blackout: seq<seq<Byte>>, testSent: nat, blackoutSent: nat)
  {
    && testSent <= blackoutFrom <= |log|
    && Begins(log[..blackoutFrom], test)
    && (forall i :: 0 <= i < testSent ==> log[i].whole)
    && TakenFrom(log[blackoutFrom..], blackout)
    && Wholes(log[blackoutFrom..]) == blackoutSent
  }

  function TestPackets(leds: int): seq<seq<Byte>>
    requires 1 <= leds <= MAX_LEDS
  {
    FramesAreBuilt(leds);
    BuildPackets(Frame(TEST_RGB, leds), TEST_SEQUENCE).value
  }

  function BlackoutPackets(leds: int): seq<seq<Byte>>
    requires 1 <= leds <= MAX_LEDS
  {
    FramesAreBuilt(leds);
    BuildPackets(Frame(BLACKOUT_RGB, leds), BLACKOUT_SEQUENCE).value
  }

  /** The packets that were handed over. */
  function PacketsOf(log: seq<Handed>): (packets: seq<seq<Byte>>)
    ensures |packets| == |log| && forall i :: 0 <= i < |log| ==> packets[i] == log[i].packet
  {
    seq(|log|, i requires 0 <= i < |log| => log[i].packet)
  }

  /**
   * A blackout that is reported complete was handed over whole, as the last thing sent; whatever a
   * display of this size showed before, it shows all LEDs off then.
   */
  lemma DarkAfterBlackout(
    leds: int, log: seq<Handed>, blackoutFrom: nat, testSent: nat, blackoutSent: nat, screen: seq<Byte>)
    requires 1 <= leds <= MAX_LEDS && |screen| == leds * 3
    requires SessionLogged(log, blackoutFrom, TestPackets(leds), BlackoutPackets(leds), testSent, blackoutSent)
    requires blackoutSent == |BlackoutPackets(leds)|
    ensures forall i :: blackoutFrom <= i < |log| ==> log[i].whole
    ensures PacketsOf(log[blackoutFrom..]) == BlackoutPackets(leds)
    ensures ReceiveAll(screen, BlackoutPackets(leds)) == (Frame(BLACKOUT_RGB, leds), true)
    ensures forall i :: 0 <= i < leds ==> ReceiveAll(screen, BlackoutPackets(leds)).0[3 * i..3 * i + 3] == [0, 0, 0]
  {
    FrameIsUniform(BLACKOUT_RGB, leds);
    var part, packets, payload := log[blackoutFrom..], BlackoutPackets(leds), Frame(BLACKOUT_RGB, leds);
    assert BuildPackets(payload, BLACKOUT_SEQUENCE) == Some(packets);
    assert TakenFrom(part, packets) && Wholes(part) == |packets|;
    hide *;
    AllTaken(part, packets);
    forall i | blackoutFrom <= i < |log|
      ensures log[i].whole
    {
      assert log[i] == part[i - blackoutFrom];
    }
    BuiltPlanIsValid(payload, BLACKOUT_SEQUENCE);
    ValidPlanIsShown(screen, packets, payload, BLACKOUT_SEQUENCE);
  }

  /** Everything from the creation of the socket to its close. */
  method RunSession(use: SocketUse, net: Network, deadline: real, test: seq<seq<Byte>>, blackout: seq<seq<Byte>>)
    returns (creation: Creation, interrupted: bool, closed: bool)
    requires !net.created && !net.closeTried && |net.log| == use.attempts == use.testSent == use.blackoutSent == 0
    requires use.testReason.None? && use.blackoutReason.None? && !use.interruptDeferred
    requires 1 <= |test| == |blackout| <= MAX_DATAGRAMS
    modifies use, net`now, net`log, net`sendTimes, net`seen
    modifies net`created, net`blackoutStarted, net`blackoutFrom, net`closeTried, net`closed
    ensures old(net.seen).GoesOnTo(net.seen) && (old(net.SentInTime(deadline)) ==> net.SentInTime(deadline))
    ensures use.testReason.Some? ==> Justified(net.seen, deadline, use.testReason.value)
    ensures use.blackoutReason.Some? ==> Justified(net.seen, deadline, use.blackoutReason.value)
    ensures net.created && !closed ==> Justified(net.seen, deadline, CleanupUnconfirmed)
    ensures creation.NotCreated? ==> CreateTrouble(creation) in net.seen.troubles
    ensures net.seen.Smooth(deadline) ==>
              && creation.Created? && !interrupted && closed && use.testReason.None? && use.blackoutReason.None?
              && use.testSent == |test| && use.blackoutSent == |blackout|
    ensures creation.NotCreated? <==> !net.created
    ensures creation.NotCreated? ==> creation.signal != Fine && (!net.interruptible ==> creation.signal != Interrupt)
    ensures net.created ==> net.blackoutStarted && net.closeTried && closed == net.closed && use.blackoutAttempted
    ensures |net.log| <= MAX_SEND_ATTEMPTS
    ensures !net.interruptible && !net.hooked ==> !interrupted
    ensures net.created ==> SessionLogged(net.log, net.blackoutFrom, test, blackout, use.testSent, use.blackoutSent)
    ensures net.created ==>
              && use.testSent <= |test| && (use.testReason.Some? ==> IsTestReason(use.testReason.value))
              && use.BlackoutAccounted(|blackout|, net)
    ensures net.created && !net.hooked && !net.interruptible ==> (use.testSent == |test| <==> use.testReason.None?)
  {
    hide Justified, Explains, Network.SentInTime;
    interrupted, closed := false, false;
    creation := net.CreateSocket();
    match creation {
      case NotCreated(_) =>
      case CreatedThenInterrupted =>
        interrupted, closed := FinishLease(use, net, deadline, blackout, Interrupt);
      case Created =>
        var body := net.ControlPoint();
        if body == Fine {
          UseSocket(use, net, deadline, test);
          if use.interruptDeferred {
            body := Interrupt;
          }
        }
        interrupted, closed := FinishLease(use, net, deadline, blackout, body);
    }
  }

  /** What the result tells about the socket: whether there was one, whether it closed, what it took of each frame. */
  ghost predicate TellsTheTruth(result: ProbeResult, net: Network, leds: int)
    reads net
  {
    && result.created == net.created
    && (net.created ==> result.closed == net.closed)
    && (net.created && 1 <= leds <= MAX_LEDS ==>
          && result.testSent >= 0 && result.blackoutSent >= 0
          && SessionLogged(
               net.log, net.blackoutFrom, TestPackets(leds), BlackoutPackets(leds), result.testSent, result.blackoutSent))
  }

  /** The blackout came before the one close, and there were not too many datagrams. */
  ghost predicate Behaved(net: Network)
    reads net
  {
    (net.created ==> net.blackoutStarted && net.closeTried) && |net.log| <= MAX_SEND_ATTEMPTS
  }

  lemma PreSocketIsConsistent(reason: Reason, leds: int)
    requires 1 <= leds <= MAX_LEDS
    requires reason in {ResolutionFailed, ResolutionAmbiguous, NotUnicast, SocketCreationFailed, Unexpected}
    ensures Consistent(PreSocketResult(reason, leds, |TestPackets(leds)|), leds)
  {
    FramesAreBuilt(leds);
  }

  lemma PlansFit(leds: int)
    requires 1 <= leds <= MAX_LEDS
    ensures 1 <= |TestPackets(leds)| == |BlackoutPackets(leds)| == ExpectedPackets(leds * 3) <= MAX_DATAGRAMS
  {
    FramesAreBuilt(leds);
  }

  /** The reason in a result names what happened. */
  ghost predicate ReasonHolds(result: ProbeResult, net: Network, deadline: real)
    reads net
  {
    if net.created then Justified(net.seen, deadline, result.reason) else RefusalHolds(result.reason, net.resolved, net.seen)
  }

  /** Both frames were handed over and taken whole, the test frame first, and nothing else. */
  ghost predicate Delivered(log: seq<Handed>, leds: int)
    requires 1 <= leds <= MAX_LEDS
  {
    AllWhole(log, TestPackets(leds) + BlackoutPackets(leds))
  }

  lemma CompleteIsDelivered(leds: int, log: seq<Handed>, blackoutFrom: nat)
    requires 1 <= leds <= MAX_LEDS
    requires SessionLogged(
               log, blackoutFrom, TestPackets(leds), BlackoutPackets(leds), |TestPackets(leds)|, |BlackoutPackets(leds)|)
    ensures Delivered(log, leds)
  {
    hide TestPackets, BlackoutPackets;
    var test, blackout := TestPackets(leds), BlackoutPackets(leds);
    var part := log[blackoutFrom..];
    AllTaken(part, blackout);
    assert |log[..blackoutFrom]| == |test|;
    forall i | 0 <= i < |log|
      ensures log[i] == Handed((test + blackout)[i], true)
    {
      if i < |test| {
        assert log[..blackoutFrom][i] == log[i];
      } else {
        assert log[i] == part[i - blackoutFrom];
      }
    }
  }

  /** Everything after the deadline is known. */
  method RunProbe(net: Network, leds: int, deadline: real) returns (ended: Ended)
    requires 1 <= leds <= MAX_LEDS
    requires !net.created && !net.closeTried && net.log == []
    modifies net`now, net`log, net`sendTimes, net`seen, net`resolved
    modifies net`created, net`blackoutStarted, net`blackoutFrom, net`closeTried, net`closed
    ensures Behaved(net) && (ended.Reported? ==> TellsTheTruth(ended.result, net, leds))
    ensures !net.hooked && !net.interruptible ==> ended.Reported? && Consistent(ended.result, leds)
    ensures old(net.seen).GoesOnTo(net.seen) && (old(net.SentInTime(deadline)) ==> net.SentInTime(deadline))
    ensures net.created ==> OneSafeTarget(net.resolved)
    ensures ended.Reported? ==> ReasonHolds(ended.result, net, deadline)
    ensures net.seen.Smooth(deadline) && OneSafeTarget(net.resolved) ==>
              ended.Reported? && ended.result.reason == Validated && Delivered(net.log, leds)
  {
    hide TestPackets, BlackoutPackets, SessionLogged, Consistent, Justified, OneSafeTarget, Delivered, FinalReason, Network.SentInTime;
    PlansFit(leds);
    var test, blackout := TestPackets(leds), BlackoutPackets(leds);
    var early := Prepare(net, leds, |test|);
    if early.Some? {
      if early.value.Reported? {
        PreSocketIsConsistent(early.value.result.reason, leds);
      }
      return early.value;
    }
    var use := new SocketUse();
    var creation, interrupted, closed := RunSession(use, net, deadline, test, blackout);
    if interrupted || creation == NotCreated(Interrupt) {
      return Interrupted;
    }
    if creation.NotCreated? {
      var reason := if creation.signal == OsError then SocketCreationFailed else Unexpected;
      PreSocketIsConsistent(reason, leds);
      return Reported(PreSocketResult(reason, leds, |test|));
    }
    if !net.hooked && !net.interruptible {
      SocketResultIsConsistent(use.testReason, use.blackoutReason, use.testSent, use.blackoutSent, closed, leds, |test|);
    }
    FinalReasonHolds(use.testReason, use.blackoutReason, use.testSent, use.blackoutSent, closed, |test|, net.seen, deadline);
    if net.seen.Smooth(deadline) {
      CompleteIsDelivered(leds, net.log, net.blackoutFrom);
    }
    return Reported(SocketResult(
      use.testReason, use.blackoutReason, use.testSent, use.blackoutSent, use.blackoutAttempted, closed, leds, |test|));
  }

  lemma FinalReasonHolds(
    testReason: Option<Reason>, blackoutReason: Option<Reason>, testSent: nat, blackoutSent: nat, closed: bool, planned: nat,
    seen: Record, deadline: real)
    requires testReason.Some? ==> Justified(seen, deadline, testReason.value)
    requires blackoutReason.Some? ==> Justified(seen, deadline, blackoutReason.value)
    requires !closed ==> Justified(seen, deadline, CleanupUnconfirmed)
    requires seen.Smooth(deadline) ==>
               closed && testReason.None? && blackoutReason.None? && testSent == blackoutSent == planned
    ensures var reason := FinalReason(testReason, blackoutReason, testSent == planned, blackoutSent == planned, closed);
            Justified(seen, deadline, reason) && (seen.Smooth(deadline) ==> reason == Validated)
  {
  }

  /**
   * One probe.  On every run an acquired socket gets its blackout before its one close and at most
   * four sends happen, none two seconds or more after the start, and none unless there is just one address to
   * send to and none is unsafe; the counts in the result tell what was taken whole of the two frames, in which
   * order, and its reason names what happened.  When nothing goes wrong, both frames are delivered and the
   * result is validated.  Without a hook and without interrupts the result passes its validator exactly if the
   * clock answered with a time when it was first asked.
   */
  method Probe(net: Network, leds: int) returns (ended: Ended)
    requires net.Untouched()
    modifies net
    ensures Behaved(net) && (ended.Reported? ==> TellsTheTruth(ended.result, net, leds))
    ensures 1 <= leds <= MAX_LEDS && !net.hooked && !net.interruptible ==>
              && ended.Reported? && net.firstReading.Some?
              && (Consistent(ended.result, leds) <==> net.firstReading.value.Time?)
    ensures net.created ==> OneSafeTarget(net.resolved)
    ensures 1 <= leds <= 512 && net.firstReading.Some? && net.firstReading.value.Time? ==>
              var deadline := net.firstReading.value.t + 2.0;
              && net.SentInTime(deadline)
              && (ended.Reported? ==> ReasonHolds(ended.result, net, deadline))
              && (net.seen.Smooth(deadline) && OneSafeTarget(net.resolved) ==>
                    ended.Reported? && ended.result.reason == Validated && Delivered(net.log, leds))
    ensures 1 <= leds <= 512 ==> net.firstReading.Some?
  {
    hide SessionLogged, TestPackets, BlackoutPackets, Delivered, OneSafeTarget, ReasonHolds;
    if !(1 <= leds <= MAX_LEDS) {
      return Reported(NO_RESULT);
    }
    var reading := net.StartClock();
    if reading.ClockSignals? {
      return if reading.signal == Interrupt then Interrupted else Reported(NO_RESULT);
    }
    ended := RunProbe(net, leds, reading.t + DEADLINE_SECONDS);
  }
}
