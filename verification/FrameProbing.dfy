/** The bounded steps and the response parsers that both frame probes are built from. */
module FrameProbing {
  import opened Wrappers
  import opened FrameResults
  import opened CaptureDevice

  const CAPABILITY_SIZE: nat := 104
  const FORMAT_SIZE: nat := 208
  const BUFFER_SIZE: nat := 88
  const MAX_POLLS: nat := 2
  const VIDEO_CAPTURE: nat := 1
  const MEMORY_MMAP: nat := 1
  const MAX_MMAP_LENGTH: int := 16 * 1024 * 1024

  // ---------- Responses ----------

  function U32(b: seq<Byte>, at: nat): nat
    requires at + 4 <= |b|
  {
    b[at] as int + 0x100 * b[at + 1] as int + 0x1_0000 * b[at + 2] as int + 0x100_0000 * b[at + 3] as int
  }

  /** `bit` is a power of two. */
  predicate HasBit(value: nat, bit: nat)
    requires bit > 0
  {
    (value / bit) % 2 == 1
  }

  const CAP_VIDEO_CAPTURE: nat := 1
  const CAP_READWRITE: nat := 0x0100_0000
  const CAP_STREAMING: nat := 0x0400_0000
  const CAP_DEVICE_CAPS: nat := 0x8000_0000

  /** The capabilities that count, if the response is valid. */
  function EffectiveCapabilities(response: seq<Byte>): Option<nat> {
    if |response| != CAPABILITY_SIZE || exists i :: 92 <= i < 104 && response[i] != 0 then None
    else
      var capabilities := U32(response, 84);
      Some(if HasBit(capabilities, CAP_DEVICE_CAPS) then U32(response, 88) else capabilities)
  }

  /** The device captures single-planar frames, and offers this way of access as well. */
  predicate Offers(response: seq<Byte>, access: nat)
    requires access > 0
  {
    && EffectiveCapabilities(response).Some?
    && HasBit(EffectiveCapabilities(response).value, 1) && HasBit(EffectiveCapabilities(response).value, access)
  }

  function ParseFormat(response: seq<Byte>): (r: Result<Format, Reason>)
    ensures r.Success? ==> r.value.Bounded()
    ensures r.Failure? ==> r.error.Fault?
  {
    if |response| != FORMAT_SIZE || U32(response, 0) != VIDEO_CAPTURE then Failure(Fault("invalid_current_format_response"))
    else
      var width, height, sizeimage := U32(response, 8), U32(response, 12), U32(response, 28);
      if !(1 <= width <= MAX_WIDTH && 1 <= height <= MAX_HEIGHT) then Failure(Fault("current_format_dimensions_invalid"))
      else if sizeimage < 1 then Failure(Fault("frame_size_invalid"))
      else if sizeimage > MAX_SIZEIMAGE then Failure(Fault("frame_size_exceeds_limit"))
      else Success(Format(width, height, sizeimage))
  }

  predicate IsMmapBuffer(response: seq<Byte>) {
    && |response| == BUFFER_SIZE
    && U32(response, 0) == 0
    && U32(response, 4) == VIDEO_CAPTURE
    && U32(response, 60) == MEMORY_MMAP
  }

  /** The length of the buffer to map. */
  function ParseBuffer(response: seq<Byte>): (r: Result<int, Reason>)
    ensures r.Success? ==> 1 <= r.value <= MAX_MMAP_LENGTH
    ensures r.Failure? ==> r.error.Fault?
  {
    if !IsMmapBuffer(response) then Failure(Fault("invalid_buffer_query_response"))
    else
      var length := U32(response, 72);
      if length < 1 then Failure(Fault("mapped_buffer_length_invalid"))
      else if length > MAX_MMAP_LENGTH then Failure(Fault("mapped_buffer_length_exceeds_limit"))
      else Success(length)
  }

  /** The byte count the driver reports, if any, and what to make of it. */
  function ParseFrame(response: seq<Byte>, sizeimage: int, mappedLength: int): (Option<int>, Reason) {
    if !IsMmapBuffer(response) then (None, Fault("invalid_frame_dequeue_response"))
    else
      var count := U32(response, 8);
      if count == 0 then (Some(count), Fault("frame_empty"))
      else if count > sizeimage || count > mappedLength then (Some(count), Fault("frame_byte_count_invalid"))
      else (Some(count), Validated)
  }

  /** The format in a result is the one the driver answered. */
  predicate ShowsFormat(r: ProbeResult, replies: map<Request, seq<Byte>>) {
    DimensionsComplete(r) ==>
      && GetFormat in replies
      && ParseFormat(replies[GetFormat]) == Success(Format(r.width.value, r.height.value, r.sizeimage.value))
  }

  // ---------- Bounded steps ----------

  function DeadlineExceeded(): (reason: Reason)
    ensures reason.Fault?
  {
    Fault("validation_deadline_exceeded")
  }

  function FrameNotReady(): (reason: Reason)
    ensures reason.Fault?
  {
    Fault("frame_not_ready")
  }

  function PollFailure(): (reason: Reason)
    ensures reason.Fault?
  {
    Fault("poll_failed")
  }

  function PollInterrupted(): (reason: Reason)
    ensures reason.Fault?
  {
    Fault("poll_interrupted_budget_exhausted")
  }

  /** Reasons that the acquisition itself can give; the others belong to cleanup. */
  predicate Ordinary(reason: Reason) {
    reason.Fault? || reason == Unexpected || reason == ReadwriteNotSupported
  }

  /** The reasons one kind of request gives when it is interrupted, unknown to the driver, or fails. */
  datatype Reasons = Reasons(interrupted: Reason, unsupported: Reason, failed: Reason) {
    predicate Plain() {
      interrupted.Fault? && unsupported.Fault? && failed.Fault?
    }
  }

  const CAPABILITY_REASONS := Reasons(
    Fault("capability_ioctl_interrupted_budget_exhausted"), Fault("querycap_not_supported"), Fault("capability_query_failed"))
  const FORMAT_REASONS := Reasons(
    Fault("current_format_ioctl_interrupted_budget_exhausted"), Fault("current_format_not_supported"),
    Fault("current_format_query_failed"))

  /** `Propagated` is an exception that the step does not catch. */
  datatype Attempt =
    | Succeeded(response: seq<Byte>, remaining: nat)
    | GaveUp(reason: Reason, tried: bool, remaining: nat)
    | Propagated

  /** The script lets this request succeed at once. */
  predicate Obliges(device: Device, request: Request, deadline: real, budget: nat) {
    && device.script.Some? && device.script.value.now < deadline
    && budget > 0 && device.script.value.ioctl(request).Done?
  }

  /** All but the last of these answers were interruptions. */
  predicate Retried(answers: seq<Reply>) {
    forall i :: 0 <= i < |answers| - 1 ==> answers[i] == Failed(EINTR)
  }

  /** Why a request is given up after these answers: the last one is a failure, or there was no time or budget left. */
  predicate GivenUpFor(
    request: Request, reasons: Reasons, reason: Reason, answers: seq<Reply>, late: bool, budget: nat)
  {
    if answers != [] && answers[|answers| - 1] != Failed(EINTR) then
      match answers[|answers| - 1]
      case Done(_) => false
      case Raised => reason == Unexpected
      case Failed(errno) =>
        reason ==
          if request == DequeueBuffer && errno == EAGAIN then FrameNotReady()
          else if errno == ENOTTY || errno == EINVAL then reasons.unsupported
          else reasons.failed
    else if answers != [] then reason == reasons.interrupted && (late || |answers| == budget)
    else (late && reason == DeadlineExceeded()) || (budget == 0 && reason == reasons.interrupted)
  }

  /** What an attempt comes to after these answers, and with this reading of the clock. */
  predicate RetriedTo(
    a: Attempt, request: Request, reasons: Reasons, answers: seq<Reply>, budget: nat, now: Option<real>, deadline: real)
  {
    && Retried(answers) && |answers| <= budget
    && (a.Succeeded? <==> answers != [] && answers[|answers| - 1].Done?)
    && (a.Succeeded? ==> a == Succeeded(answers[|answers| - 1].response, budget - |answers|))
    && (a.GaveUp? ==>
          && a.tried == (answers != []) && a.remaining == budget - |answers|
          && GivenUpFor(request, reasons, a.reason, answers, now.Some? && now.value >= deadline, budget))
    && (a.Propagated? ==> now.None?)
  }

  /** What one answer ends an attempt with, if it is no interruption. */
  function EndedBy(request: Request, reasons: Reasons, reply: Reply, remaining: nat): Option<Attempt> {
    match reply
    case Done(response) => Some(Succeeded(response, remaining))
    case Raised => Some(GaveUp(Unexpected, true, remaining))
    case Failed(EINTR) => None
    case Failed(errno) =>
      if request == DequeueBuffer && errno == EAGAIN then Some(GaveUp(FrameNotReady(), true, remaining))
      else Some(GaveUp(if errno == ENOTTY || errno == EINVAL then reasons.unsupported else reasons.failed, true, remaining))
  }

  predicate AllInterrupted(answers: seq<Reply>) {
    forall i :: 0 <= i < |answers| ==> answers[i] == Failed(EINTR)
  }

  lemma EndIsRetried(
    request: Request, reasons: Reasons, answers: seq<Reply>, reply: Reply, budget: nat, now: Option<real>, deadline: real)
    requires AllInterrupted(answers) && |answers| < budget && reasons.Plain()
    ensures EndedBy(request, reasons, reply, budget - |answers| - 1).None? <==> reply == Failed(EINTR)
    ensures reply == Failed(EINTR) ==> AllInterrupted(answers + [reply])
    ensures reply != Failed(EINTR) ==>
              var a := EndedBy(request, reasons, reply, budget - |answers| - 1).value;
              && RetriedTo(a, request, reasons, answers + [reply], budget, now, deadline)
              && if reply.Done? then a == Succeeded(reply.response, budget - |answers| - 1) else a.GaveUp? && Ordinary(a.reason) && a.reason != ReadwriteNotSupported
  {
    hide FrameNotReady;
  }

  lemma LateIsRetried(request: Request, reasons: Reasons, answers: seq<Reply>, budget: nat, now: real, deadline: real)
    requires AllInterrupted(answers) && |answers| < budget && now >= deadline
    ensures RetriedTo(
              GaveUp(if answers != [] then reasons.interrupted else DeadlineExceeded(), answers != [], budget - |answers|),
              request, reasons, answers, budget, Some(now), deadline)
  {
    hide DeadlineExceeded, FrameNotReady;
  }

  lemma BudgetIsRetried(request: Request, reasons: Reasons, answers: seq<Reply>, budget: nat, now: Option<real>, deadline: real)
    requires AllInterrupted(answers) && |answers| == budget
    ensures RetriedTo(GaveUp(reasons.interrupted, answers != [], 0), request, reasons, answers, budget, now, deadline)
  {
    hide FrameNotReady;
  }

  lemma RaisedIsRetried(request: Request, reasons: Reasons, answers: seq<Reply>, budget: nat, deadline: real)
    requires AllInterrupted(answers) && |answers| < budget
    ensures RetriedTo(Propagated, request, reasons, answers, budget, None, deadline)
  {
  }

  /** An ioctl that is repeated while it is interrupted, within the deadline and the common budget. */
  method IoctlWithRetry(device: Device, request: Request, deadline: real, reasons: Reasons, budget: nat) returns (a: Attempt)
    requires reasons.Plain() && Closed !in device.done && device.ioctls + budget <= device.limit
    modifies device`done, device`ioctls, device`replies, device`answers, device`now
    ensures old(device.answers) <= device.answers
    ensures RetriedTo(a, request, reasons, device.answers[|old(device.answers)|..], budget, device.now, deadline)
    ensures device.done == if a.Succeeded? then old(device.done) + {Did(request)} else old(device.done)
    ensures device.replies == if a.Succeeded? then old(device.replies)[request := a.response] else old(device.replies)
    ensures a.Succeeded? ==> device.ioctls + a.remaining <= device.limit
    ensures a.GaveUp? ==> Ordinary(a.reason) && a.reason != ReadwriteNotSupported
    ensures device.ioctls <= device.limit
    ensures Obliges(device, request, deadline, budget) ==>
              a == Succeeded(device.script.value.ioctl(request).response, budget - 1)
  {
    hide DeadlineExceeded, RetriedTo, EndedBy;
    var interrupted, remaining := false, budget;
    ghost var before, recent: seq<Reply> := device.answers, [];
    while remaining > 0
      invariant device.answers == before + recent && |recent| == budget - remaining && AllInterrupted(recent)
      invariant interrupted == (recent != [])
      invariant device.done == old(device.done) && device.replies == old(device.replies)
      invariant device.ioctls + remaining <= device.limit
      invariant Obliges(device, request, deadline, budget) ==> remaining == budget
    {
      assert device.answers[|before|..] == recent;
      var now := device.Monotonic();
      if now.None? {
        RaisedIsRetried(request, reasons, recent, budget, deadline);
        return Propagated;
      }
      if now.value >= deadline {
        LateIsRetried(request, reasons, recent, budget, now.value, deadline);
        return GaveUp(if interrupted then reasons.interrupted else DeadlineExceeded(), interrupted, remaining);
      }
      remaining := remaining - 1;
      var reply := device.Ioctl(request, deadline);
      EndIsRetried(request, reasons, recent, reply, budget, now, deadline);
      recent := recent + [reply];
      assert device.answers[|before|..] == recent;
      var end := EndedBy(request, reasons, reply, remaining);
      if end.Some? {
        return end.value;
      }
      interrupted := true;
    }
    assert device.answers[|before|..] == recent;
    BudgetIsRetried(request, reasons, recent, budget, device.now, deadline);
    return GaveUp(reasons.interrupted, interrupted, 0);
  }

  const POLLIN: nat := 0x1
  const POLLERR: nat := 0x8
  const POLLHUP: nat := 0x10
  const POLLNVAL: nat := 0x20
  const POLLRDNORM: nat := 0x40

  predicate IsFatal(e: PollEvent) {
    HasBit(e.mask, POLLERR) || HasBit(e.mask, POLLHUP) || HasBit(e.mask, POLLNVAL)
  }

  /** `None` means that the descriptor is readable. */
  function JudgeEvents(events: seq<PollEvent>): (reason: Option<Reason>)
    ensures reason.Some? ==> reason.value.Fault?
  {
    if events == [] then Some(Fault("poll_timeout"))
    else if exists i :: 0 <= i < |events| && IsFatal(events[i]) then Some(Fault("poll_fatal_event"))
    else if |events| != 1 || !events[0].sameDescriptor then Some(Fault("poll_unexpected_events"))
    else if HasBit(events[0].mask, POLLIN) || HasBit(events[0].mask, POLLRDNORM) then None
    else Some(Fault("poll_unexpected_events"))
  }

  /** Whether the wait ended, in what, and whether the device was polled at all. */
  datatype Waited = Waited(reason: Option<Reason>, polled: bool) | WaitRaised

  /** All but the last of these answers were interruptions. */
  predicate PollRetried(polls: seq<PollReply>) {
    forall i :: 0 <= i < |polls| - 1 ==> polls[i] == PollFailed(EINTR)
  }

  /** The last poll found the device readable. */
  predicate ReadyAfter(polls: seq<PollReply>) {
    && polls != [] && polls[|polls| - 1].Events?
    && JudgeEvents(polls[|polls| - 1].events).None?
  }

  /** What a wait comes to after these answers. */
  predicate WaitedFor(w: Waited, polls: seq<PollReply>, late: bool) {
    if polls != [] && polls[|polls| - 1] != PollFailed(EINTR) then
      match polls[|polls| - 1]
      case Events(events) => w == Waited(JudgeEvents(events), true)
      case PollRaised => w == Waited(Some(Unexpected), true)
      case PollFailed(_) => w == Waited(Some(PollFailure()), true)
    else if polls != [] then
      (w.WaitRaised? || w == Waited(Some(PollInterrupted()), true)) && (late || |polls| == 2 || w.WaitRaised?)
    else
      w.WaitRaised? || (late && w == Waited(Some(DeadlineExceeded()), false))
  }

  predicate OnlyInterrupted(polls: seq<PollReply>) {
    forall i :: 0 <= i < |polls| ==> polls[i] == PollFailed(EINTR)
  }

  /** Any answer but an interruption ends the wait. */
  lemma AnswerEnds(before: seq<PollReply>, recent: seq<PollReply>, reply: PollReply, late: bool)
    requires OnlyInterrupted(recent)
    ensures (before + recent + [reply])[|before|..] == recent + [reply] && PollRetried(recent + [reply])
    ensures reply == PollFailed(EINTR) ==> OnlyInterrupted(recent + [reply])
    ensures match reply
            case Events(events) =>
              && WaitedFor(Waited(JudgeEvents(events), true), recent + [reply], late)
              && (JudgeEvents(events).None? ==> ReadyAfter(before + recent + [reply]))
            case PollRaised => WaitedFor(Waited(Some(Unexpected), true), recent + [reply], late)
            case PollFailed(errno) => errno != EINTR ==> WaitedFor(Waited(Some(PollFailure()), true), recent + [reply], late)
  {
    hide JudgeEvents, PollFailure, PollInterrupted, DeadlineExceeded;
  }

  /** After interruptions only, a wait ends with the clock or with its attempts. */
  lemma WaitEnds(before: seq<PollReply>, recent: seq<PollReply>, late: bool)
    requires OnlyInterrupted(recent)
    ensures (before + recent)[|before|..] == recent && PollRetried(recent) && WaitedFor(WaitRaised, recent, late)
    ensures late && recent == [] ==> WaitedFor(Waited(Some(DeadlineExceeded()), false), recent, late)
    ensures recent != [] && (late || |recent| == 2) ==> WaitedFor(Waited(Some(PollInterrupted()), true), recent, late)
  {
    hide JudgeEvents, PollFailure, PollInterrupted, DeadlineExceeded;
  }

  method PollReady(device: Device, deadline: real) returns (w: Waited)
    requires Closed !in device.done
    modifies device`polls, device`now
    ensures old(device.polls) <= device.polls
    ensures var polls := device.polls[|old(device.polls)|..];
            && PollRetried(polls) && |polls| <= 2
            && WaitedFor(w, polls, device.now.Some? && device.now.value >= deadline)
            && (w.WaitRaised? ==> device.now.None?)
    ensures w.Waited? && w.reason.None? ==> ReadyAfter(device.polls)
    ensures w.Waited? && w.reason.None? ==> w.polled
    ensures w.Waited? && w.reason.Some? ==> Ordinary(w.reason.value) && w.reason.value != ReadwriteNotSupported
    ensures device.script.Some? && device.script.value.now < deadline && device.script.value.poll.Events? ==>
              w == Waited(JudgeEvents(device.script.value.poll.events), true)
  {
    hide DeadlineExceeded, PollFailure, PollInterrupted, JudgeEvents, WaitedFor, PollRetried, ReadyAfter;
    var attempts := 0;
    ghost var before, recent: seq<PollReply> := device.polls, [];
    while attempts < MAX_POLLS
      invariant device.polls == before + recent && |recent| == attempts <= MAX_POLLS
      invariant OnlyInterrupted(recent) && (attempts > 0 ==> device.now.Some?)
      invariant device.script.Some? && device.script.value.now < deadline && device.script.value.poll.Events? ==> attempts == 0
    {
      var now := device.Monotonic();
      WaitEnds(before, recent, now.Some? && now.value >= deadline);
      if now.None? {
        return WaitRaised;
      }
      if deadline - now.value <= 0.0 {
        return Waited(
          Some(if attempts > 0 then PollInterrupted() else DeadlineExceeded()),
          attempts > 0);
      }
      attempts := attempts + 1;
      var reply := device.Poll(deadline);
      AnswerEnds(before, recent, reply, now.value >= deadline);
      recent := recent + [reply];
      assert device.polls == before + recent;
      match reply {
        case Events(events) => return Waited(JudgeEvents(events), true);
        case PollRaised => return Waited(Some(Unexpected), true);
        case PollFailed(EINTR) =>
        case PollFailed(_) => return Waited(Some(PollFailure()), true);
      }
    }
    WaitEnds(before, recent, device.now.value >= deadline);
    return Waited(Some(PollInterrupted()), attempts > 0);
  }
}
