/**
 * The memory-mapping frame probe (hardware/capture_frame_streaming_probe.py), its cleanup, and
 * exactly when its result passes the validator.
 */
module StreamingProbe {
  import opened Wrappers
  import opened FrameResults
  import opened CaptureDevice
  import opened FrameProbing

  const MAX_IOCTLS: nat := 14
  const MAX_DRIVER_BUFFERS: nat := 8
  const MAX_CLEANUP_ATTEMPTS: nat := 2
  const WIPE_CHUNK: nat := 64 * 1024

  /** The reasons of one kind of request, by the word its codes start with. */
  function ReasonsFor(word: string): (reasons: Reasons)
    ensures reasons.Plain()
  {
    Reasons(
      Fault(word + "_ioctl_interrupted_budget_exhausted"), Fault(word + "_not_supported"), Fault(word + "_failed"))
  }

  /** How far the acquisition got, and why it ended. */
  datatype Acquisition = Acquisition(
    reason: Reason,
    capabilityQueried: bool,
    formatQueried: bool,
    format: Option<Format>,
    negotiated: bool,
    mappedLength: int,
    mapped: bool,
    queued: bool,
    started: bool,
    polled: bool,
    dequeueTried: bool,
    received: bool,
    byteCount: Option<int>)

  const NOTHING_YET := Acquisition(
    Unexpected, false, false, None, false, 0, false, false, false, false, false, false, None)

  /** The fields of an acquisition fit each other and the truth about the device. */
  ghost predicate Orderly(a: Acquisition, done: set<Act>) {
    && a.capabilityQueried == (Did(QueryCap) in done)
    && a.formatQueried == (Did(GetFormat) in done)
    && a.mapped == (Mapped in done)
    && a.queued == (Did(QueueBuffer) in done)
    && a.started == (Did(StreamOn) in done)
    && (a.negotiated ==> Did(RequestBuffers) in done)
    && done !! {Closed, Wiped, Unmapped, Did(StreamOff), Did(ReleaseBuffers)}
    && InOrder(a)
  }

  predicate InOrder(a: Acquisition) {
    && (a.formatQueried ==> a.capabilityQueried)
    && (a.format.Some? ==> a.formatQueried && a.format.value.Bounded())
    && (a.negotiated ==> a.format.Some?)
    && (a.mapped ==> a.negotiated && a.mappedLength >= 1)
    && (a.queued ==> a.mapped)
    && (a.started ==> a.queued)
    && (a.polled ==> a.started)
    && (a.dequeueTried ==> a.polled)
    && (a.byteCount.Some? ==> a.dequeueTried)
    && (a.received ==>
          a.dequeueTried && a.byteCount.Some?
          && 1 <= a.byteCount.value <= a.format.value.sizeimage && a.byteCount.value <= a.mappedLength)
    && (!a.received && a.byteCount.Some? && 1 <= a.byteCount.value <= a.format.value.sizeimage ==>
          a.byteCount.value > a.mappedLength)
    && (if a.received then a.reason == Validated else Ordinary(a.reason))
  }

  /** How many buffers the driver says it has set up. */
  function BufferCount(response: seq<Byte>): nat {
    if |response| < 4 then 0 else U32(response, 0)
  }

  /** The driver has set up at least one buffer. */
  predicate BuffersNegotiated(replies: map<Request, seq<Byte>>) {
    RequestBuffers in replies && BufferCount(replies[RequestBuffers]) >= 1
  }

  /** What the acquisition knows is what the driver answered, and it knows all of that. */
  predicate Faithful(a: Acquisition, replies: map<Request, seq<Byte>>) {
    && (a.format.Some? ==> GetFormat in replies && ParseFormat(replies[GetFormat]) == Success(a.format.value))
    && (a.negotiated <==> BuffersNegotiated(replies))
    && (a.mapped ==> QueryBuffer in replies && ParseBuffer(replies[QueryBuffer]) == Success(a.mappedLength))
    && (a.received ==> a.byteCount.Some?)
    && if DequeueBuffer in replies then
         && a.format.Some? && a.mapped
         && ParseFrame(replies[DequeueBuffer], a.format.value.sizeimage, a.mappedLength) == (a.byteCount, a.reason)
       else
         a.byteCount.None?
  }

  /** Nothing after mapping has happened yet. */
  predicate NotQueued(a: Acquisition) {
    !a.queued && !a.started && !a.polled && !a.dequeueTried && !a.received && a.byteCount.None?
  }

  function WhyNot(attempt: Attempt): Reason {
    if attempt.GaveUp? then attempt.reason else Unexpected
  }

  // ---------- Devices that cooperate ----------

  /** The device captures by streaming and says in which format. */
  predicate DescribesItself(s: Script) {
    && s.characterDevice
    && s.ioctl(QueryCap).Done? && s.ioctl(GetFormat).Done?
    && var capabilities := EffectiveCapabilities(s.ioctl(QueryCap).response);
       && capabilities.Some? && HasBit(capabilities.value, CAP_VIDEO_CAPTURE) && HasBit(capabilities.value, CAP_STREAMING)
       && ParseFormat(s.ioctl(GetFormat).response).Success?
  }

  /** It sets up a few buffers, lets one be mapped, and starts the stream. */
  predicate Streams(s: Script) {
    && s.ioctl(RequestBuffers).Done? && 1 <= BufferCount(s.ioctl(RequestBuffers).response) <= MAX_DRIVER_BUFFERS
    && s.ioctl(QueryBuffer).Done? && ParseBuffer(s.ioctl(QueryBuffer).response).Success?
    && s.mapping == Some(true)
    && s.ioctl(QueueBuffer).Done? && s.ioctl(StreamOn).Done?
  }

  /** A scripted device that does its part in time, up to the start of the stream. */
  predicate Cooperates(device: Device, deadline: real) {
    && device.script.Some? && device.script.value.now < deadline
    && DescribesItself(device.script.value) && Streams(device.script.value)
  }

  /** These requests have been answered as the script says. */
  predicate Answered(device: Device, replies: map<Request, seq<Byte>>, requests: set<Request>) {
    device.script.Some? && forall r :: r in requests ==> r in replies && device.script.value.ioctl(r) == Done(replies[r])
  }

  const BEFORE_STREAM: set<Request> := {GetFormat, RequestBuffers, QueryBuffer}

  /** Only a character device was asked, and for its format only if it offers streaming. */
  ghost predicate MayBeAsked(device: Device, replies: map<Request, seq<Byte>>)
    reads device`descriptor
  {
    && (QueryCap in replies ==> device.descriptor == Some(true))
    && (GetFormat in replies ==> QueryCap in replies && Offers(replies[QueryCap], 0x0400_0000))
  }

  /** The driver has set up at least one buffer and no more than eight. */
  predicate FewBuffers(replies: map<Request, seq<Byte>>) {
    RequestBuffers in replies && 1 <= BufferCount(replies[RequestBuffers]) <= 8
  }

  /** What was set up stays set up while other requests are answered. */
  lemma SetUpStays(device: Device, before: map<Request, seq<Byte>>, after: map<Request, seq<Byte>>)
    requires QueryCap in before <==> QueryCap in after
    requires GetFormat in before <==> GetFormat in after
    requires RequestBuffers in before <==> RequestBuffers in after
    requires QueryCap in before ==> before[QueryCap] == after[QueryCap]
    requires RequestBuffers in before ==> before[RequestBuffers] == after[RequestBuffers]
    ensures MayBeAsked(device, before) ==> MayBeAsked(device, after)
    ensures FewBuffers(before) ==> FewBuffers(after)
  {
    hide Offers, BufferCount;
  }

  /** Looks at the descriptor and asks for the capabilities. */
  method QueryCapabilities(device: Device, deadline: real) returns (problem: Option<Reason>, queried: bool, budget: nat)
    requires device.Untouched() && device.limit == MAX_IOCTLS
    modifies device`done, device`ioctls, device`replies, device`answers, device`now, device`descriptor
    ensures QueryCap in device.replies ==> device.descriptor == Some(true)
    ensures problem.None? ==> QueryCap in device.replies && Offers(device.replies[QueryCap], 0x0400_0000)
    ensures device.done == if queried then {Did(QueryCap)} else {}
    ensures device.replies.Keys <= {QueryCap}
    ensures problem.None? ==> queried
    ensures problem.Some? ==> Ordinary(problem.value)
    ensures device.ioctls + budget <= MAX_IOCTLS
    ensures Cooperates(device, deadline) ==> problem.None? && budget == MAX_IOCTLS - 1
  {
    hide RetriedTo, Streams, EffectiveCapabilities, HasBit, ParseFormat;
    queried, budget := false, 0;
    var isCharacterDevice := device.Fstat();
    if isCharacterDevice.Failure? {
      return Some(isCharacterDevice.error), queried, budget;
    }
    if !isCharacterDevice.value {
      return Some(Fault("not_character_device")), queried, budget;
    }
    var query := IoctlWithRetry(device, QueryCap, deadline, CAPABILITY_REASONS, MAX_IOCTLS);
    if !query.Succeeded? {
      return Some(WhyNot(query)), queried, budget;
    }
    queried, budget := true, query.remaining;
    var capabilities := EffectiveCapabilities(query.response);
    problem :=
      if capabilities.None? then Some(Fault("invalid_capability_response"))
      else if !HasBit(capabilities.value, CAP_VIDEO_CAPTURE) then Some(Fault("single_planar_capture_not_supported"))
      else if !HasBit(capabilities.value, CAP_STREAMING) then Some(Fault("streaming_io_not_supported"))
      else None;
  }

  /** Capabilities and current format; `budget` is what is left of the ioctls. */
  method QueryDevice(device: Device, deadline: real) returns (a: Acquisition, ready: bool, budget: nat)
    requires device.Untouched() && device.limit == MAX_IOCTLS
    modifies device`done, device`ioctls, device`replies, device`answers, device`now, device`descriptor
    ensures MayBeAsked(device, device.replies)
    ensures Orderly(a, device.done) && Faithful(a, device.replies) && NotQueued(a) && !a.mapped && !a.negotiated
    ensures device.replies.Keys <= {QueryCap, GetFormat}
    ensures ready ==> a.format.Some?
    ensures device.ioctls + budget <= MAX_IOCTLS
    ensures Cooperates(device, deadline) ==> ready && budget == MAX_IOCTLS - 2 && Answered(device, device.replies, {GetFormat})
  {
    hide RetriedTo, Offers, Streams, EffectiveCapabilities, HasBit, ParseFormat, ParseBuffer, ParseFrame;
    a, ready := NOTHING_YET, false;
    var problem, queried;
    problem, queried, budget := QueryCapabilities(device, deadline);
    a := a.(capabilityQueried := queried);
    if problem.Some? {
      a := a.(reason := problem.value);
      return;
    }
    var formatQuery := IoctlWithRetry(device, GetFormat, deadline, FORMAT_REASONS, budget);
    if !formatQuery.Succeeded? {
      a, budget := a.(reason := WhyNot(formatQuery)), 0;
      return;
    }
    a, budget := a.(formatQueried := true), formatQuery.remaining;
    var format := ParseFormat(formatQuery.response);
    if format.Failure? {
      a := a.(reason := format.error);
      return;
    }
    a, ready := a.(format := Some(format.value)), true;
  }

  /** Negotiates one buffer. */
  method NegotiateBuffer(device: Device, deadline: real, a0: Acquisition, budget0: nat)
    returns (a: Acquisition, ready: bool, budget: nat)
    requires Orderly(a0, device.done) && NotQueued(a0) && !a0.mapped && !a0.negotiated && a0.format.Some?
    requires Faithful(a0, device.replies) && device.replies.Keys <= {QueryCap, GetFormat}
    requires MayBeAsked(device, device.replies)
    requires device.ioctls + budget0 <= device.limit == MAX_IOCTLS
    modifies device`done, device`ioctls, device`replies, device`answers, device`now
    ensures MayBeAsked(device, device.replies) && (ready ==> FewBuffers(device.replies))
    ensures Orderly(a, device.done) && Faithful(a, device.replies) && NotQueued(a) && !a.mapped
    ensures device.replies.Keys <= {QueryCap, GetFormat, RequestBuffers}
    ensures ready ==> a.negotiated
    ensures device.ioctls + budget <= MAX_IOCTLS
    ensures Cooperates(device, deadline) && budget0 > 0 && Answered(device, old(device.replies), {GetFormat}) ==>
              ready && budget == budget0 - 1 && Answered(device, device.replies, {GetFormat, RequestBuffers})
  {
    hide RetriedTo, Offers, ParseFormat, ParseBuffer, ParseFrame, U32, ReasonsFor, DescribesItself;
    a, ready, budget := a0, false, 0;
    var request := IoctlWithRetry(device, RequestBuffers, deadline, ReasonsFor("buffer_negotiation"), budget0);
    if !request.Succeeded? {
      a := a.(reason := WhyNot(request));
      return;
    }
    var count := BufferCount(request.response);
    if count < 1 {
      a := a.(reason := Fault("buffer_negotiation_empty"));
      return;
    }
    a := a.(negotiated := true);
    if count > MAX_DRIVER_BUFFERS {
      a := a.(reason := Fault("buffer_count_exceeds_limit"));
      return;
    }
    ready, budget := true, request.remaining;
  }

  /** Asks for the length of the buffer and maps it. */
  method MapBuffer(device: Device, deadline: real, a0: Acquisition, budget0: nat) returns (a: Acquisition, ready: bool, budget: nat)
    requires Orderly(a0, device.done) && NotQueued(a0) && !a0.mapped && a0.negotiated
    requires Faithful(a0, device.replies) && device.replies.Keys <= {QueryCap, GetFormat, RequestBuffers}
    requires MayBeAsked(device, device.replies) && FewBuffers(device.replies)
    requires device.ioctls + budget0 <= device.limit == MAX_IOCTLS
    modifies device`done, device`ioctls, device`replies, device`answers, device`now
    ensures MayBeAsked(device, device.replies) && FewBuffers(device.replies)
    ensures Orderly(a, device.done) && Faithful(a, device.replies) && NotQueued(a)
    ensures DequeueBuffer !in device.replies
    ensures ready ==> a.mapped
    ensures device.ioctls + budget <= MAX_IOCTLS
    ensures Cooperates(device, deadline) && budget0 > 0 && Answered(device, old(device.replies), {GetFormat, RequestBuffers}) ==>
              ready && budget == budget0 - 1 && Answered(device, device.replies, BEFORE_STREAM)
  {
    hide RetriedTo, MayBeAsked, FewBuffers, Offers, ParseFormat, ParseBuffer, ParseFrame, U32, ReasonsFor, BufferCount, DescribesItself;
    a, ready, budget := a0, false, 0;
    var query := IoctlWithRetry(device, QueryBuffer, deadline, ReasonsFor("buffer_query"), budget0);
    SetUpStays(device, old(device.replies), device.replies);
    if !query.Succeeded? {
      a := a.(reason := WhyNot(query));
      return;
    }
    var length := ParseBuffer(query.response);
    if length.Failure? {
      a := a.(reason := length.error);
      return;
    }
    a := a.(mappedLength := length.value);
    var mapped := device.Map();
    if mapped != Some(true) {
      a := a.(reason := if mapped.None? then Fault("buffer_map_failed") else Unexpected);
      return;
    }
    a, ready, budget := a.(mapped := true), true, query.remaining;
  }

  /** Nothing after starting the stream has happened yet. */
  predicate NotWaited(a: Acquisition) {
    !a.polled && !a.dequeueTried && !a.received && a.byteCount.None?
  }

  /** Queues the buffer and starts the stream. */
  method StartStream(device: Device, deadline: real, a0: Acquisition, budget0: nat) returns (a: Acquisition, ready: bool, budget: nat)
    requires Orderly(a0, device.done) && NotQueued(a0) && a0.mapped
    requires Faithful(a0, device.replies) && DequeueBuffer !in device.replies
    requires MayBeAsked(device, device.replies) && FewBuffers(device.replies)
    requires device.ioctls + budget0 <= device.limit == MAX_IOCTLS
    modifies device`done, device`ioctls, device`replies, device`answers, device`now
    ensures MayBeAsked(device, device.replies) && FewBuffers(device.replies)
    ensures Orderly(a, device.done) && Faithful(a, device.replies) && NotWaited(a)
    ensures DequeueBuffer !in device.replies
    ensures ready ==> a.started
    ensures device.ioctls + budget <= MAX_IOCTLS
    ensures Cooperates(device, deadline) && budget0 > 1 && Answered(device, old(device.replies), BEFORE_STREAM) ==>
              ready && budget == budget0 - 2 && Answered(device, device.replies, BEFORE_STREAM)
  {
    hide RetriedTo, MayBeAsked, FewBuffers, Offers, BufferCount, ParseFormat, ParseBuffer, ParseFrame, ReasonsFor, BufferCount, DescribesItself;
    a, ready, budget := a0, false, 0;
    var queue := IoctlWithRetry(device, QueueBuffer, deadline, ReasonsFor("buffer_queue"), budget0);
    SetUpStays(device, old(device.replies), device.replies);
    if !queue.Succeeded? {
      a := a.(reason := WhyNot(queue));
      return;
    }
    a := a.(queued := true);
    var start := IoctlWithRetry(device, StreamOn, deadline, ReasonsFor("stream_start"), queue.remaining);
    SetUpStays(device, old(device.replies), device.replies);
    if !start.Succeeded? {
      a := a.(reason := WhyNot(start));
      return;
    }
    a, ready, budget := a.(started := true), true, start.remaining;
  }

  /** A frame that the script announces was asked for; one that it does not announce was not. */
  predicate FrameAnswered(device: Device, replies: map<Request, seq<Byte>>) {
    && Answered(device, replies, BEFORE_STREAM)
    && (device.script.value.poll.Events? ==>
          if JudgeEvents(device.script.value.poll.events).Some? then DequeueBuffer !in replies
          else device.script.value.ioctl(DequeueBuffer).Done? ==> Answered(device, replies, {DequeueBuffer}))
  }

  /** Waits for the frame. */
  method WaitForFrame(device: Device, deadline: real, a0: Acquisition) returns (a: Acquisition, ready: bool)
    requires Orderly(a0, device.done) && NotWaited(a0) && a0.started && Faithful(a0, device.replies)
    requires DequeueBuffer !in device.replies
    modifies device`now, device`polls
    ensures Orderly(a, device.done) && Faithful(a, device.replies) && a.started
    ensures ready ==> a.polled && ReadyAfter(device.polls) && !a.dequeueTried && !a.received && a.byteCount.None?
    ensures device.script.Some? && device.script.value.now < deadline && device.script.value.poll.Events? ==>
              (ready <==> JudgeEvents(device.script.value.poll.events).None?)
  {
    hide WaitedFor, PollRetried, ReadyAfter, ParseFormat, ParseBuffer, ParseFrame, BufferCount, PollFailure;
    a, ready := a0, false;
    var registered := device.Register();
    if !registered {
      a := a.(reason := PollFailure());
      return;
    }
    var waited := PollReady(device, deadline);
    if waited.WaitRaised? {
      a := a.(reason := Unexpected);
      return;
    }
    a := a.(polled := waited.polled);
    if waited.reason.Some? {
      a := a.(reason := waited.reason.value);
      return;
    }
    ready := true;
  }

  /** Waits for the frame and takes it. */
  method TakeFrame(device: Device, deadline: real, a0: Acquisition, budget: nat) returns (a: Acquisition)
    requires Orderly(a0, device.done) && NotWaited(a0) && a0.started
    requires Faithful(a0, device.replies) && DequeueBuffer !in device.replies
    requires MayBeAsked(device, device.replies) && FewBuffers(device.replies)
    requires device.ioctls + budget <= device.limit == MAX_IOCTLS
    modifies device`done, device`ioctls, device`replies, device`answers, device`now, device`polls
    ensures MayBeAsked(device, device.replies) && FewBuffers(device.replies)
    ensures DequeueBuffer in device.replies ==> ReadyAfter(device.polls)
    ensures Orderly(a, device.done) && Faithful(a, device.replies) && device.ioctls <= MAX_IOCTLS
    ensures a.started
    ensures Cooperates(device, deadline) && budget > 0 && Answered(device, old(device.replies), BEFORE_STREAM) ==>
              FrameAnswered(device, device.replies)
  {
    hide RetriedTo, MayBeAsked, FewBuffers, ReadyAfter, BufferCount, ParseFormat, ParseBuffer, IsMmapBuffer, ReasonsFor,
      DescribesItself, Streams, JudgeEvents;
    var ready;
    a, ready := WaitForFrame(device, deadline, a0);
    if !ready {
      return;
    }
    var dequeue := IoctlWithRetry(device, DequeueBuffer, deadline, ReasonsFor("frame_dequeue"), budget);
    SetUpStays(device, old(device.replies), device.replies);
    if dequeue.Propagated? {
      return a.(reason := Unexpected);
    }
    if dequeue.GaveUp? {
      return a.(reason := dequeue.reason, dequeueTried := dequeue.tried);
    }
    var (count, reason) := ParseFrame(dequeue.response, a.format.value.sizeimage, a.mappedLength);
    a := a.(dequeueTried := true, byteCount := count, reason := reason, received := reason == Validated);
  }

  /** The whole acquisition, one stage after the other. */
  method Acquire(device: Device, deadline: real) returns (a: Acquisition)
    requires device.Untouched() && device.limit == MAX_IOCTLS
    modifies device`done, device`ioctls, device`replies, device`answers, device`now, device`descriptor, device`polls
    ensures MayBeAsked(device, device.replies) && (a.mapped ==> FewBuffers(device.replies))
    ensures DequeueBuffer in device.replies ==> ReadyAfter(device.polls)
    ensures Orderly(a, device.done) && Faithful(a, device.replies) && device.ioctls <= MAX_IOCTLS
    ensures Cooperates(device, deadline) ==> a.started && FrameAnswered(device, device.replies)
  {
    hide MayBeAsked, FewBuffers, ReadyAfter, Faithful, Orderly, Cooperates, Answered, FrameAnswered;
    var ready, budget;
    a, ready, budget := QueryDevice(device, deadline);
    if ready {
      a, ready, budget := NegotiateBuffer(device, deadline, a, budget);
    }
    if ready {
      a, ready, budget := MapBuffer(device, deadline, a, budget);
    }
    if ready {
      a, ready, budget := StartStream(device, deadline, a, budget);
    }
    if ready {
      a := TakeFrame(device, deadline, a, budget);
    }
  }

  // ---------- Cleanup ----------

  datatype Cleaned = Cleaned(stopped: bool, wiped: bool, unmapped: bool, released: bool, closed: bool)

  predicate TriedTo(tried: set<Attempted>, act: Act) {
    Tried(act, true) in tried || Tried(act, false) in tried
  }

  /**
   * Whatever was started, mapped or taken was tried to be undone.  Only two things are left out: wiping, while the
   * device may still write because neither the stream could be stopped nor the descriptor closed; and releasing
   * the buffers of a descriptor that had to be closed to stop the stream.
   */
  predicate LeavesNothingUntried(started: bool, mapped: bool, negotiated: bool, done: set<Act>, tried: set<Attempted>) {
    && TriedTo(tried, Closed)
    && (started ==> TriedTo(tried, Did(StreamOff)))
    && (mapped ==> TriedTo(tried, Unmapped))
    && (mapped ==> TriedTo(tried, Wiped) || (started && Did(StreamOff) !in done && Tried(Closed, false) in tried))
    && (negotiated ==> TriedTo(tried, Did(ReleaseBuffers)) || (started && Did(StreamOff) !in done && Closed in done))
  }

  method TryCleanup(device: Device, request: Request) returns (ok: bool)
    requires Closed !in device.done && Did(request) !in device.done
    modifies device`done, device`tried
    ensures device.done == if ok then old(device.done) + {Did(request)} else old(device.done)
    ensures old(device.tried) <= device.tried && TriedTo(device.tried, Did(request))
    ensures device.script.Some? ==> ok == device.script.value.cleanup(request).Done?
  {
    var attempts := 0;
    while attempts < MAX_CLEANUP_ATTEMPTS
      invariant device.done == old(device.done) && old(device.tried) <= device.tried
      invariant attempts > 0 ==> TriedTo(device.tried, Did(request))
      invariant device.script.Some? && device.script.value.cleanup(request).Done? ==> attempts == 0
    {
      attempts := attempts + 1;
      var reply := device.CleanupIoctl(request);
      match reply {
        case Done(_) => return true;
        case Failed(EINTR) =>
        case _ => return false;
      }
    }
    return false;
  }

  /** Cleanup did what its fields say, and touched the mapping only when the device could not write to it. */
  ghost predicate Truthful(a: Acquisition, c: Cleaned, done: set<Act>) {
    && c.stopped == (Did(StreamOff) in done)
    && c.wiped == (Wiped in done)
    && c.unmapped == (Unmapped in done)
    && c.released == (Did(ReleaseBuffers) in done)
    && c.closed == (Closed in done)
    && CleanupInOrder(a, c)
  }

  predicate CleanupInOrder(a: Acquisition, c: Cleaned) {
    && (c.stopped ==> a.started)
    && (c.wiped ==> a.mapped)
    && (c.unmapped ==> a.mapped)
    && (c.released ==> a.negotiated)
    && (a.started && !c.stopped && c.wiped ==> c.closed)
  }

  /** What a script leaves of a full cleanup, if it lets the stream be stopped. */
  function CleanedBy(s: Script): Cleaned {
    Cleaned(true, s.wipes, s.unmaps, s.cleanup(ReleaseBuffers).Done?, s.closes)
  }

  /** The acts that these steps of a cleanup achieved. */
  function Acts(c: Cleaned): (acts: set<Act>)
    ensures acts <= {Did(StreamOff), Wiped, Unmapped, Did(ReleaseBuffers), Closed}
  {
    (if c.stopped then {Did(StreamOff)} else {}) + (if c.wiped then {Wiped} else {}) + (if c.unmapped then {Unmapped} else {})
    + (if c.released then {Did(ReleaseBuffers)} else {}) + if c.closed then {Closed} else {}
  }

  /** Stops the stream, or closes the descriptor if that fails. */
  method StopStream(device: Device) returns (stopped: bool, closed: bool)
    requires Closed !in device.done && Did(StreamOff) !in device.done
    modifies device`done, device`tried
    ensures device.done == old(device.done) + Acts(Cleaned(stopped, false, false, false, closed))
    ensures old(device.tried) <= device.tried && TriedTo(device.tried, Did(StreamOff)) && !(stopped && closed)
    ensures !stopped ==> Tried(Closed, closed) in device.tried
    ensures device.script.Some? && device.script.value.cleanup(StreamOff).Done? ==> stopped
  {
    closed := false;
    stopped := TryCleanup(device, StreamOff);
    if !stopped {
      closed := device.Close();
    }
  }

  /** Wipes the mapped buffer if that is safe, and unmaps it. */
  method GiveUpMapping(device: Device, safeToWipe: bool) returns (wiped: bool, unmapped: bool)
    requires Mapped in device.done && Wiped !in device.done && Unmapped !in device.done && (safeToWipe ==> !device.MayWrite())
    modifies device`done, device`tried
    ensures device.done == old(device.done) + Acts(Cleaned(false, wiped, unmapped, false, false))
    ensures old(device.tried) <= device.tried && TriedTo(device.tried, Unmapped) && (safeToWipe ==> TriedTo(device.tried, Wiped))
    ensures wiped ==> safeToWipe
    ensures device.script.Some? ==>
              (wiped <==> safeToWipe && device.script.value.wipes) && (unmapped <==> device.script.value.unmaps)
  {
    wiped := false;
    if safeToWipe {
      wiped := device.WipeMapped();
    }
    unmapped := device.Unmap();
  }

  /** Gives back the buffers, if there are any, and closes the descriptor. */
  method GiveBack(device: Device, negotiated: bool) returns (released: bool, closed: bool)
    requires Closed !in device.done && Did(ReleaseBuffers) !in device.done
    modifies device`done, device`tried
    ensures device.done == old(device.done) + Acts(Cleaned(false, false, false, released, closed))
    ensures old(device.tried) <= device.tried && TriedTo(device.tried, Closed)
    ensures (negotiated ==> TriedTo(device.tried, Did(ReleaseBuffers))) && (released ==> negotiated)
    ensures device.script.Some? ==>
              (closed <==> device.script.value.closes)
              && (released <==> negotiated && device.script.value.cleanup(ReleaseBuffers).Done?)
  {
    released := false;
    if negotiated {
      released := TryCleanup(device, ReleaseBuffers);
    }
    closed := device.Close();
  }

  /** What was tried once stays tried. */
  lemma TriedStays(before: set<Attempted>, after: set<Attempted>)
    requires before <= after
    ensures forall act :: TriedTo(before, act) ==> TriedTo(after, act)
  {
  }

  /** What a step of the cleanup adds, and that it adds nothing else. */
  lemma ActsIn(before: set<Act>, c: Cleaned, done: set<Act>)
    requires done == before + Acts(c)
    ensures Did(StreamOff) in done <==> Did(StreamOff) in before || c.stopped
    ensures Wiped in done <==> Wiped in before || c.wiped
    ensures Unmapped in done <==> Unmapped in before || c.unmapped
    ensures Did(ReleaseBuffers) in done <==> Did(ReleaseBuffers) in before || c.released
    ensures Closed in done <==> Closed in before || c.closed
    ensures (Mapped in done <==> Mapped in before) && (Did(StreamOn) in done <==> Did(StreamOn) in before)
  {
  }

  lemma NoActs(before: set<Act>)
    ensures before + Acts(Cleaned(false, false, false, false, false)) == before
  {
  }

  lemma CleanupMayBegin(a: Acquisition, done: set<Act>)
    requires Orderly(a, done)
    ensures done !! {Closed, Wiped, Unmapped, Did(StreamOff), Did(ReleaseBuffers)}
    ensures a.mapped == (Mapped in done) && a.started == (Did(StreamOn) in done)
    ensures (a.started ==> a.mapped) && (a.mapped ==> a.negotiated)
  {
  }

  /** The steps of a cleanup add up. */
  lemma ActsAddUp(before: set<Act>, c: Cleaned, first: Cleaned, second: Cleaned, third: Cleaned, done: set<Act>)
    requires before !! {Closed, Wiped, Unmapped, Did(StreamOff), Did(ReleaseBuffers)}
    requires done == before + Acts(first) + Acts(second) + Acts(third)
    requires first == Cleaned(c.stopped, false, false, false, first.closed)
    requires second == Cleaned(false, c.wiped, c.unmapped, false, false)
    requires third == Cleaned(false, false, false, c.released, third.closed) && c.closed == (first.closed || third.closed)
    ensures done - {Closed, Wiped, Unmapped, Did(StreamOff), Did(ReleaseBuffers)} == before
    ensures c.stopped == (Did(StreamOff) in done) && c.wiped == (Wiped in done) && c.unmapped == (Unmapped in done)
    ensures c.released == (Did(ReleaseBuffers) in done) && c.closed == (Closed in done)
  {
  }

  /**
   * Stops the stream, or closes the descriptor if that fails; only then wipes and unmaps the
   * buffer; releases the buffers; closes the descriptor.
   */
  method CleanUp(device: Device, a: Acquisition) returns (c: Cleaned)
    requires Orderly(a, device.done) && device.tried == {}
    modifies device`done, device`tried
    ensures LeavesNothingUntried(a.started, a.mapped, a.negotiated, device.done, device.tried)
    ensures Truthful(a, c, device.done)
    ensures device.done - {Closed, Wiped, Unmapped, Did(StreamOff), Did(ReleaseBuffers)} == old(device.done)
    ensures device.script.Some? && device.script.value.cleanup(StreamOff).Done? && a.started && a.mapped && a.negotiated ==>
              c == CleanedBy(device.script.value)
  {
    hide Acts, Orderly, TriedTo;
    CleanupMayBegin(a, device.done);
    NoActs(device.done);
    ghost var before, tried := device.done, device.tried;
    var stopped, closed, wiped, unmapped, released := false, false, false, false, false;
    if a.started {
      stopped, closed := StopStream(device);
    }
    ghost var first := Cleaned(stopped, false, false, false, closed);
    ActsIn(before, first, device.done);
    ghost var middle := device.done;
    NoActs(middle);
    tried := device.tried;
    if a.mapped {
      wiped, unmapped := GiveUpMapping(device, !a.started || stopped || closed);
    }
    ghost var second := Cleaned(false, wiped, unmapped, false, false);
    ActsIn(middle, second, device.done);
    TriedStays(tried, device.tried);
    NoActs(device.done);
    tried := device.tried;
    ghost var third := Cleaned(false, false, false, false, false);
    if !closed {
      released, closed := GiveBack(device, a.negotiated);
      third := Cleaned(false, false, false, released, closed);
    }
    TriedStays(tried, device.tried);
    c := Cleaned(stopped, wiped, unmapped, released, closed);
    ActsAddUp(before, c, first, second, third, device.done);
    ClosedIsTried(device.tried);
  }

  lemma ClosedIsTried(tried: set<Attempted>)
    ensures Tried(Closed, true) in tried || Tried(Closed, false) in tried ==> TriedTo(tried, Closed)
  {
  }

  // ---------- The result ----------

  function FinalReason(a: Acquisition, c: Cleaned): Reason {
    if a.mapped && !c.wiped then WipeFailed
    else if a.started && !c.stopped then StreamStopFailed
    else if a.mapped && !c.unmapped then BufferUnmapFailed
    else if a.negotiated && !c.released then BufferReleaseFailed
    else if !c.closed then if a.received then CleanupUnconfirmed else DescriptorCloseFailed
    else a.reason
  }

  /** What the reason of a result says about the cleanup, if anything. */
  predicate ReasonFitsCleanup(reason: Reason, done: set<Act>, replies: map<Request, seq<Byte>>) {
    var unwiped, running := Mapped in done && Wiped !in done, Did(StreamOn) in done && Did(StreamOff) !in done;
    var stuck, taken := Mapped in done && Unmapped !in done, BuffersNegotiated(replies) && Did(ReleaseBuffers) !in done;
    && (reason == WipeFailed <==> unwiped)
    && (reason == StreamStopFailed <==> running && !unwiped)
    && (reason == BufferUnmapFailed <==> stuck && !running && !unwiped)
    && (reason == BufferReleaseFailed <==> taken && !stuck && !running && !unwiped)
    && (reason == CleanupUnconfirmed || reason == DescriptorCloseFailed <==>
          Closed !in done && !taken && !stuck && !running && !unwiped)
    && (reason == CleanupUnconfirmed ==> FrameDelivered(replies))
    && (reason == DescriptorCloseFailed ==> !FrameDelivered(replies))
  }

  lemma ReasonTellsCleanup(a: Acquisition, c: Cleaned, done: set<Act>, replies: map<Request, seq<Byte>>)
    requires EndsWith(a, c, done, replies)
    ensures ReasonFitsCleanup(FinalReason(a, c), done, replies)
  {
    hide BuffersNegotiated, ParseFormat, ParseBuffer, ParseFrame, FrameDelivered;
    FrameIsAnswered(a, replies);
  }

  predicate CleanupCompleted(a: Acquisition, c: Cleaned) {
    && c.closed
    && (!a.started || c.stopped)
    && (!a.mapped || (c.wiped && c.unmapped))
    && (!a.negotiated || c.released)
  }

  function ResultOf(a: Acquisition, c: Cleaned): ProbeResult {
    ProbeResult(
      FinalReason(a, c), true, c.closed, a.capabilityQueried, a.formatQueried,
      if a.negotiated then Some(Mmap) else None, a.polled, false, a.received, a.byteCount,
      if a.format.Some? then Some(a.format.value.width) else None,
      if a.format.Some? then Some(a.format.value.height) else None,
      if a.format.Some? then Some(a.format.value.sizeimage) else None,
      c.wiped, CleanupCompleted(a, c), a.negotiated,
      Streaming(a.negotiated, a.mapped, a.queued, a.started, a.dequeueTried, c.stopped, c.unmapped, c.released))
  }

  /** The byte count in a result is the one the driver answered, and a frame is received exactly if that fits. */
  predicate ShowsFrame(r: ProbeResult, replies: map<Request, seq<Byte>>) {
    r.byteCount.Some? ==>
      && DequeueBuffer in replies && QueryBuffer in replies && r.sizeimage.Some?
      && ParseBuffer(replies[QueryBuffer]).Success?
      && var (count, reason) := ParseFrame(replies[DequeueBuffer], r.sizeimage.value, ParseBuffer(replies[QueryBuffer]).value);
         r.byteCount == count && (r.received <==> reason == Validated)
  }

  lemma ShowsWhatWasAnswered(a: Acquisition, c: Cleaned, replies: map<Request, seq<Byte>>)
    requires InOrder(a) && Faithful(a, replies)
    ensures ShowsFormat(ResultOf(a, c), replies) && ShowsFrame(ResultOf(a, c), replies)
  {
    hide ParseFormat, ParseBuffer, ParseFrame;
  }

  // ---------- When the result passes its validator ----------

  /** Image size, mapped length and used bytes, if the driver gave a valid answer to all three questions. */
  function FrameAnswer(replies: map<Request, seq<Byte>>): Option<(int, int, int)> {
    if GetFormat !in replies || QueryBuffer !in replies || DequeueBuffer !in replies then None
    else
      var format, length := ParseFormat(replies[GetFormat]), ParseBuffer(replies[QueryBuffer]);
      if format.Failure? || length.Failure? || !IsMmapBuffer(replies[DequeueBuffer]) then None
      else Some((format.value.sizeimage, length.value, U32(replies[DequeueBuffer], 8)))
  }

  /** The driver claims to have used more bytes than it gave to map, though not more than an image has. */
  predicate FrameBeyondMapping(replies: map<Request, seq<Byte>>) {
    match FrameAnswer(replies)
    case Some((sizeimage, length, used)) => length < used <= sizeimage
    case None => false
  }

  /** The driver delivered a frame that fits. */
  predicate FrameDelivered(replies: map<Request, seq<Byte>>) {
    match FrameAnswer(replies)
    case Some((sizeimage, length, used)) => 1 <= used <= sizeimage && used <= length
    case None => false
  }

  /**
   * Without a frame, the descriptor could not be closed, and although what was started is stopped
   * and what was mapped is wiped, the mapping or the buffers could not be given back either.
   */
  predicate StuckWithoutFrame(done: set<Act>, replies: map<Request, seq<Byte>>) {
    && !FrameDelivered(replies) && Closed !in done
    && (Did(StreamOn) in done ==> Did(StreamOff) in done)
    && (Mapped in done ==> Wiped in done)
    && ((Mapped in done && Unmapped !in done) || (BuffersNegotiated(replies) && Did(ReleaseBuffers) !in done))
  }

  /** What the final state of the device says about an acquisition. */
  ghost predicate EndsWith(a: Acquisition, c: Cleaned, done: set<Act>, replies: map<Request, seq<Byte>>) {
    && InOrder(a) && Faithful(a, replies) && Truthful(a, c, done)
    && a.mapped == (Mapped in done) && a.started == (Did(StreamOn) in done)
  }

  lemma FrameIsAnswered(a: Acquisition, replies: map<Request, seq<Byte>>)
    requires InOrder(a) && Faithful(a, replies)
    ensures a.received <==> FrameDelivered(replies)
    ensures !a.received && a.byteCount.Some? && 1 <= a.byteCount.value <= a.format.value.sizeimage <==> FrameBeyondMapping(replies)
  {
    hide ParseFormat, ParseBuffer, IsMmapBuffer, U32;
  }

  lemma ConsistentUnless(a: Acquisition, c: Cleaned)
    requires InOrder(a) && CleanupInOrder(a, c)
    ensures Consistent(ResultOf(a, c)) <==>
              && !(!a.received && a.byteCount.Some? && 1 <= a.byteCount.value <= a.format.value.sizeimage)
              && !(!a.received && !c.closed && (a.started ==> c.stopped) && (a.mapped ==> c.wiped)
                   && ((a.mapped && !c.unmapped) || (a.negotiated && !c.released)))
  {
  }

  /** The result passes its validator except after exactly two kinds of device behaviour. */
  lemma ConsistentExactly(a: Acquisition, c: Cleaned, done: set<Act>, replies: map<Request, seq<Byte>>)
    requires EndsWith(a, c, done, replies)
    ensures Consistent(ResultOf(a, c)) <==> !FrameBeyondMapping(replies) && !StuckWithoutFrame(done, replies)
  {
    FrameIsAnswered(a, replies);
    ConsistentUnless(a, c);
    hide Consistent, ResultOf, FrameDelivered, FrameBeyondMapping, BuffersNegotiated, InOrder;
  }

  /** The device let itself be closed and gave a whole image to map, if it was mapped. */
  predicate ClosedAndWholeImage(done: set<Act>, replies: map<Request, seq<Byte>>) {
    && Closed in done
    && (Mapped in done && GetFormat in replies && QueryBuffer in replies ==>
          var format, length := ParseFormat(replies[GetFormat]), ParseBuffer(replies[QueryBuffer]);
          format.Success? && length.Success? ==> length.value >= format.value.sizeimage)
  }

  /** In particular it passes whenever the descriptor is closed and the mapping holds a whole image. */
  lemma ConsistentWhenClosedAndWholeImage(a: Acquisition, c: Cleaned, done: set<Act>, replies: map<Request, seq<Byte>>)
    requires EndsWith(a, c, done, replies) && ClosedAndWholeImage(done, replies)
    ensures Consistent(ResultOf(a, c))
  {
    hide ParseFormat, ParseBuffer, IsMmapBuffer, U32, Consistent, ResultOf, Truthful, InOrder;
    ConsistentExactly(a, c, done, replies);
  }

  // ---------- The probe ----------

  /** What was started is stopped, what was mapped is wiped and unmapped, and what was taken is given back. */
  predicate AllCleanedUp(done: set<Act>, replies: map<Request, seq<Byte>>) {
    && Closed in done
    && (Did(StreamOn) in done ==> Did(StreamOff) in done)
    && (Mapped in done ==> Wiped in done && Unmapped in done)
    && (BuffersNegotiated(replies) ==> Did(ReleaseBuffers) in done)
  }

  lemma NegotiatedFaithfully(a: Acquisition, replies: map<Request, seq<Byte>>)
    requires Faithful(a, replies)
    ensures a.negotiated == BuffersNegotiated(replies)
  {
    hide BuffersNegotiated, ParseFormat, ParseBuffer, ParseFrame;
  }

  lemma CompletedIsAllCleanedUp(a: Acquisition, c: Cleaned, done: set<Act>, replies: map<Request, seq<Byte>>)
    requires EndsWith(a, c, done, replies)
    ensures CleanupCompleted(a, c) <==> AllCleanedUp(done, replies)
  {
    hide BuffersNegotiated, ParseFormat, ParseBuffer, ParseFrame, InOrder;
  }

  /** The stream was started, the frame was answered, and the cleanup is what the script makes of it. */
  ghost predicate GoesThrough(device: Device, done: set<Act>, replies: map<Request, seq<Byte>>) {
    && FrameAnswered(device, replies) && Mapped in done && Did(StreamOn) in done
    && (device.script.value.cleanup(StreamOff).Done? ==>
          && Did(StreamOff) in done
          && (Wiped in done <==> device.script.value.wipes)
          && (Unmapped in done <==> device.script.value.unmaps)
          && (Did(ReleaseBuffers) in done <==> device.script.value.cleanup(ReleaseBuffers).Done?)
          && (Closed in done <==> device.script.value.closes))
  }

  lemma StartedStays(a: Acquisition, before: set<Act>, done: set<Act>)
    requires Orderly(a, before) && done - {Closed, Wiped, Unmapped, Did(StreamOff), Did(ReleaseBuffers)} == before
    ensures a.started ==> Mapped in done && Did(StreamOn) in done && a.mapped && a.negotiated
  {
    assert before <= done;
  }

  lemma CleanedGoesThrough(device: Device, a: Acquisition, c: Cleaned, done: set<Act>, replies: map<Request, seq<Byte>>)
    requires Truthful(a, c, done) && FrameAnswered(device, replies) && Mapped in done && Did(StreamOn) in done
    requires device.script.Some? && device.script.value.cleanup(StreamOff).Done? ==> c == CleanedBy(device.script.value)
    ensures GoesThrough(device, done, replies)
  {
    hide JudgeEvents, BEFORE_STREAM;
    assert Answered(device, replies, BEFORE_STREAM);
  }

  /**
   * The probe on an open device.  Whatever the device answers, the result says truthfully what was
   * done, at most fourteen ioctls precede the cleanup, and it passes its validator unless the device
   * answered in one of two exceptional ways.
   */
  method ProbeOpened(device: Device, deadline: real) returns (result: ProbeResult)
    requires device.Untouched() && device.limit == MAX_IOCTLS
    modifies device
    ensures ShowsFormat(result, device.replies) && ShowsFrame(result, device.replies)
    ensures Consistent(result) <==> !FrameBeyondMapping(device.replies) && !StuckWithoutFrame(device.done, device.replies)
    ensures ClosedAndWholeImage(device.done, device.replies) ==> Consistent(result)
    ensures result.deviceOpened && device.ioctls <= MAX_IOCTLS
    ensures result.capabilityQueried == (Did(QueryCap) in device.done)
    ensures result.formatQueried == (Did(GetFormat) in device.done)
    ensures result.streaming.mapped == (Mapped in device.done)
    ensures result.streaming.queued == (Did(QueueBuffer) in device.done)
    ensures result.streaming.started == (Did(StreamOn) in device.done)
    ensures result.streaming.stopped == (Did(StreamOff) in device.done)
    ensures result.wiped == (Wiped in device.done)
    ensures result.streaming.unmapped == (Unmapped in device.done)
    ensures result.streaming.released == (Did(ReleaseBuffers) in device.done)
    ensures result.closed == (Closed in device.done)
    ensures result.cleanedUp ==> !device.MayWrite() && Closed in device.done
    ensures result.cleanedUp <==> AllCleanedUp(device.done, device.replies)
    ensures result.received <==> FrameDelivered(device.replies)
    ensures result.reason == Validated <==> FrameDelivered(device.replies) && result.cleanedUp
    ensures ReasonFitsCleanup(result.reason, device.done, device.replies)
    ensures LeavesNothingUntried(
              Did(StreamOn) in device.done, Mapped in device.done, BuffersNegotiated(device.replies), device.done, device.tried)
    ensures MayBeAsked(device, device.replies) && (Mapped in device.done ==> FewBuffers(device.replies))
    ensures DequeueBuffer in device.replies ==> ReadyAfter(device.polls)
    ensures Cooperates(device, deadline) ==> GoesThrough(device, device.done, device.replies)
  {
    hide MayBeAsked, FewBuffers, ReadyAfter, Faithful, ShowsFormat, ShowsFrame, Consistent, FrameBeyondMapping,
      StuckWithoutFrame, ClosedAndWholeImage, FrameDelivered, Cooperates, FrameAnswered, GoesThrough, AllCleanedUp,
      ReasonFitsCleanup, LeavesNothingUntried, BuffersNegotiated;
    var a := Acquire(device, deadline);
    ghost var before := device.done;
    var c := CleanUp(device, a);
    StartedStays(a, before, device.done);
    FrameIsAnswered(a, device.replies);
    CompletedIsAllCleanedUp(a, c, device.done, device.replies);
    ReasonTellsCleanup(a, c, device.done, device.replies);
    NegotiatedFaithfully(a, device.replies);
    if Cooperates(device, deadline) {
      CleanedGoesThrough(device, a, c, device.done, device.replies);
    }
    ConsistentExactly(a, c, device.done, device.replies);
    if ClosedAndWholeImage(device.done, device.replies) {
      ConsistentWhenClosedAndWholeImage(a, c, device.done, device.replies);
    }
    ShowsWhatWasAnswered(a, c, device.replies);
    result := ResultOf(a, c);
  }

  /** Overwrites the mapped buffer in chunks and looks whether every byte is zero. */
  method WipeMappedFrame(buffer: array<Byte>) returns (ok: bool)
    requires buffer.Length > 0
    modifies buffer
    ensures ok && forall i :: 0 <= i < buffer.Length ==> buffer[i] == 0
  {
    var chunk := Min(WIPE_CHUNK, buffer.Length);
    var start := 0;
    while start < buffer.Length
      invariant 0 <= start
      invariant forall i :: 0 <= i < start && i < buffer.Length ==> buffer[i] == 0
      decreases buffer.Length - start
    {
      var end := Min(start + chunk, buffer.Length);
      forall i | start <= i < end {
        buffer[i] := 0;
      }
      start := start + chunk;
    }
    ok := forall i :: 0 <= i < buffer.Length ==> buffer[i] == 0;
  }
}
