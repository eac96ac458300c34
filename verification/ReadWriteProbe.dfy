/** The read/write frame probe (hardware/capture_frame_probe.py): its result always passes the validator. */
module ReadWriteProbe {
  import opened Wrappers
  import opened FrameResults
  import opened CaptureDevice
  import opened FrameProbing

  const MAX_IOCTLS: nat := 4
  const MAX_READS: nat := 2

  /** How far the acquisition got, and why it ended. */
  datatype Acquisition = Acquisition(
    reason: Reason,
    capabilityQueried: bool,
    formatQueried: bool,
    format: Option<Format>,
    polled: bool,
    readTried: bool,
    received: bool,
    byteCount: Option<int>)

  const NOTHING_YET := Acquisition(Unexpected, false, false, None, false, false, false, None)

  /** The fields of an acquisition fit each other; the buffer is there once it is decided to poll. */
  predicate Orderly(a: Acquisition, buffered: bool) {
    && (a.formatQueried ==> a.capabilityQueried)
    && (a.format.Some? ==> a.formatQueried && a.format.value.Bounded())
    && (buffered ==> a.format.Some?)
    && (a.polled ==> buffered)
    && (a.readTried ==> a.polled)
    && (a.byteCount.Some? ==> a.readTried)
    && (a.received ==> a.readTried && a.byteCount.Some? && 1 <= a.byteCount.value <= a.format.value.sizeimage)
    && (!a.received && a.byteCount.Some? ==> !(1 <= a.byteCount.value <= a.format.value.sizeimage))
    && (if a.received then a.reason == Validated else Ordinary(a.reason))
  }

  /** The format that the driver answered, if it is valid. */
  function FormatOf(replies: map<Request, seq<Byte>>): Option<Format> {
    if GetFormat in replies && ParseFormat(replies[GetFormat]).Success? then Some(ParseFormat(replies[GetFormat]).value) else None
  }

  /** The questions were put to a character device, and the one for the format only if it offers read/write access. */
  ghost predicate MayBeAsked(device: Device, replies: map<Request, seq<Byte>>)
    reads device`descriptor
  {
    && (QueryCap in replies ==> device.descriptor == Some(true))
    && (GetFormat in replies ==> QueryCap in replies && Offers(replies[QueryCap], 0x0100_0000))
  }

  /** The device captures single-planar frames, but not by reading. */
  predicate LacksReadWrite(replies: map<Request, seq<Byte>>) {
    && QueryCap in replies && !Offers(replies[QueryCap], 0x0100_0000)
    && EffectiveCapabilities(replies[QueryCap]).Some? && HasBit(EffectiveCapabilities(replies[QueryCap]).value, 1)
  }

  /** A scripted device that offers read/write access and says in time in which format. */
  predicate Obliging(device: Device, deadline: real) {
    && device.script.Some? && device.script.value.now < deadline
    && var s := device.script.value;
       && s.characterDevice && s.ioctl(QueryCap).Done? && s.ioctl(GetFormat).Done?
       && Offers(s.ioctl(QueryCap).response, 0x0100_0000) && ParseFormat(s.ioctl(GetFormat).response).Success?
  }

  /** A character device that tells its capabilities in time has been asked for them. */
  predicate IsAsked(device: Device, deadline: real, replies: map<Request, seq<Byte>>) {
    device.script.Some? && device.script.value.now < deadline && device.script.value.characterDevice
    && device.script.value.ioctl(QueryCap).Done? ==>
      QueryCap in replies && replies[QueryCap] == device.script.value.ioctl(QueryCap).response
  }

  /** Looks at the descriptor and asks for the capabilities; `left` is what is left of the ioctls. */
  method QueryCapabilities(device: Device, deadline: real) returns (problem: Option<Reason>, queried: bool, left: nat)
    requires device.Untouched() && device.limit == MAX_IOCTLS
    modifies device`done, device`ioctls, device`replies, device`answers, device`now, device`descriptor
    ensures device.done == (if queried then {Did(QueryCap)} else {}) && device.replies.Keys == (if queried then {QueryCap} else {})
    ensures device.ioctls + left <= MAX_IOCTLS && (queried ==> device.descriptor == Some(true))
    ensures problem.None? ==> queried && Offers(device.replies[QueryCap], 0x0100_0000) && left > 0
    ensures problem.Some? ==> Ordinary(problem.value)
    ensures problem == Some(ReadwriteNotSupported) <==> LacksReadWrite(device.replies)
    ensures Obliging(device, deadline) ==> problem.None?
    ensures IsAsked(device, deadline, device.replies)
  {
    hide EffectiveCapabilities, HasBit, ParseFormat;
    queried, left := false, 0;
    var isCharacterDevice := device.Fstat();
    if isCharacterDevice.Failure? {
      return Some(isCharacterDevice.error), queried, left;
    }
    if !isCharacterDevice.value {
      return Some(Fault("not_character_device")), queried, left;
    }
    var query := IoctlWithRetry(device, QueryCap, deadline, CAPABILITY_REASONS, MAX_IOCTLS);
    if !query.Succeeded? {
      return Some(if query.GaveUp? then query.reason else Unexpected), queried, left;
    }
    queried, left := true, query.remaining;
    var capabilities := EffectiveCapabilities(query.response);
    problem :=
      if capabilities.None? then Some(Fault("invalid_capability_response"))
      else if !HasBit(capabilities.value, CAP_VIDEO_CAPTURE) then Some(Fault("single_planar_capture_not_supported"))
      else if !HasBit(capabilities.value, CAP_READWRITE) then Some(ReadwriteNotSupported)
      else if left == 0 then Some(CAPABILITY_REASONS.interrupted)
      else None;
  }

  /** Everything before a buffer is needed. */
  method QueryDevice(device: Device, deadline: real) returns (a: Acquisition, ready: bool)
    requires device.Untouched() && device.limit == MAX_IOCTLS
    modifies device`done, device`ioctls, device`replies, device`answers, device`now, device`descriptor
    ensures a.format == FormatOf(device.replies)
    ensures MayBeAsked(device, device.replies) && (a.reason == ReadwriteNotSupported <==> LacksReadWrite(device.replies))
    ensures ready ==> a.reason != ReadwriteNotSupported
    ensures IsAsked(device, deadline, device.replies)
    ensures Obliging(device, deadline) ==> ready && a.format == Some(ParseFormat(device.script.value.ioctl(GetFormat).response).value)
    ensures Closed !in device.done && device.ioctls <= MAX_IOCTLS
    ensures Orderly(a, false) && !a.polled && a.byteCount.None? && !a.received && (ready ==> a.format.Some?)
    ensures a.capabilityQueried == (Did(QueryCap) in device.done) && a.formatQueried == (Did(GetFormat) in device.done)
  {
    hide Offers, ParseFormat, LacksReadWrite;
    a, ready := NOTHING_YET, false;
    var problem, queried, left := QueryCapabilities(device, deadline);
    a := a.(capabilityQueried := queried);
    if problem.Some? {
      a := a.(reason := problem.value);
      return;
    }
    ghost var before := device.replies;
    var formatQuery := IoctlWithRetry(device, GetFormat, deadline, FORMAT_REASONS, left);
    LacksAlike(before, device.replies);
    if !formatQuery.Succeeded? {
      a := a.(reason := if formatQuery.GaveUp? then formatQuery.reason else Unexpected);
      return;
    }
    a := a.(formatQueried := true);
    var format := ParseFormat(formatQuery.response);
    if format.Failure? {
      a := a.(reason := format.error);
    } else {
      a, ready := a.(format := Some(format.value)), true;
    }
  }

  lemma LacksAlike(before: map<Request, seq<Byte>>, after: map<Request, seq<Byte>>)
    requires QueryCap in before <==> QueryCap in after
    requires QueryCap in before ==> before[QueryCap] == after[QueryCap]
    ensures LacksReadWrite(before) == LacksReadWrite(after)
  {
  }

  /** All but the last of these answers were interruptions. */
  predicate ReadRetried(replies: seq<ReadReply>) {
    forall i :: 0 <= i < |replies| - 1 ==> replies[i] == ReadFailed(EINTR)
  }

  /** What one answer to a read means. */
  function ReasonOfRead(reply: ReadReply, size: int): (reason: Reason)
    ensures reason == Validated <==> reply.Count? && 1 <= reply.count <= size
    ensures reason == Validated || Ordinary(reason)
  {
    match reply
    case Count(count) => if count == 0 then Fault("frame_empty") else if 1 <= count <= size then Validated else Fault("frame_byte_count_invalid")
    case ReadRaised => Unexpected
    case ReadFailed(EINTR) => ReadInterrupted()
    case ReadFailed(EAGAIN) => FrameNotReady()
    case ReadFailed(errno) =>
      Fault(if errno == NotSupported || errno == EINVAL then "readv_not_supported" else "frame_read_failed")
  }

  function ReadInterrupted(): (reason: Reason)
    ensures reason.Fault?
  {
    Fault("frame_read_interrupted_budget_exhausted")
  }

  /** Why an attempt to read ends after these answers: the last one says so, or there was no time or attempt left. */
  predicate ReadFor(reason: Reason, replies: seq<ReadReply>, now: Option<real>, deadline: real, size: int) {
    if now.None? then reason == Unexpected
    else if replies != [] then
      && reason == ReasonOfRead(replies[|replies| - 1], size)
      && (replies[|replies| - 1] == ReadFailed(EINTR) ==> now.value >= deadline || |replies| == 2)
    else reason == DeadlineExceeded() && now.value >= deadline
  }

  predicate NoneButInterrupted(replies: seq<ReadReply>) {
    forall i :: 0 <= i < |replies| ==> replies[i] == ReadFailed(EINTR)
  }

  /** A frame comes with its count, and no other count comes with a frame. */
  lemma CountFits(a0: Acquisition, reply: ReadReply)
    requires Orderly(a0, true) && a0.polled && a0.byteCount.None? && !a0.received
    ensures var reason := ReasonOfRead(reply, a0.format.value.sizeimage);
            Orderly(
              a0.(
                readTried := true, reason := reason, received := reason == Validated,
                byteCount := if reply.Count? then Some(reply.count) else None),
              true)
  {
    hide ReasonOfRead;
  }

  lemma NothingReadFits(a0: Acquisition)
    requires Orderly(a0, true) && a0.polled && a0.byteCount.None? && !a0.received
    ensures forall tried, reason :: Ordinary(reason) ==> Orderly(a0.(readTried := tried, reason := reason), true)
  {
  }

  lemma InterruptedReason(size: int)
    ensures ReasonOfRead(ReadFailed(EINTR), size) == ReadInterrupted()
  {
  }

  /** Reads one frame into the buffer, trying again when interrupted. */
  method ReadFrame(device: Device, buffer: array<Byte>, deadline: real, a0: Acquisition) returns (a: Acquisition)
    requires Closed !in device.done
    requires Orderly(a0, true) && a0.polled && a0.byteCount.None? && !a0.received && a0.format.value.sizeimage == buffer.Length
    requires device.lastRead.None?
    modifies buffer, device`lastRead, device`readReplies, device`now
    ensures Orderly(a, true) && a.format == a0.format && a.polled && a.byteCount == device.lastRead
    ensures a.capabilityQueried == a0.capabilityQueried && a.formatQueried == a0.formatQueried
    ensures old(device.readReplies) <= device.readReplies
    ensures var replies := device.readReplies[|old(device.readReplies)|..];
            && ReadRetried(replies) && |replies| <= 2
            && ReadFor(a.reason, replies, device.now, deadline, buffer.Length)
    ensures device.script.Some? && device.script.value.now < deadline && device.script.value.read.Count? ==>
              device.lastRead == Some(device.script.value.read.count)
    ensures a.reason != ReadwriteNotSupported
  {
    NothingReadFits(a0);
    InterruptedReason(buffer.Length);
    hide ReasonOfRead, ReadInterrupted, DeadlineExceeded, Orderly;
    a := a0;
    var attempts := 0;
    ghost var before, recent: seq<ReadReply> := device.readReplies, [];
    while attempts < MAX_READS
      invariant a == a0.(readTried := a.readTried) && a.readTried == (attempts > 0 || a0.readTried) && device.lastRead.None?
      invariant device.readReplies == before + recent && |recent| == attempts <= MAX_READS && NoneButInterrupted(recent)
      invariant attempts > 0 ==> device.now.Some?
      invariant device.script.Some? && device.script.value.now < deadline && device.script.value.read.Count? ==> attempts == 0
    {
      assert device.readReplies[|before|..] == recent;
      var now := device.Monotonic();
      if now.None? {
        return a0.(reason := Unexpected);
      }
      if now.value >= deadline {
        return a.(reason := if attempts > 0 then ReadInterrupted() else DeadlineExceeded());
      }
      attempts := attempts + 1;
      a := a.(readTried := true);
      var reply := device.Read(buffer, deadline);
      recent := recent + [reply];
      assert device.readReplies[|before|..] == recent;
      if reply != ReadFailed(EINTR) {
        CountFits(a0, reply);
        var reason := ReasonOfRead(reply, buffer.Length);
        return a.(
          reason := reason, received := reason == Validated, byteCount := if reply.Count? then Some(reply.count) else None);
      }
    }
    assert device.readReplies[|before|..] == recent;
    return a.(reason := ReadInterrupted());
  }

  /** Polls the device and reads the frame. */
  method Acquire(device: Device, buffer: array<Byte>, deadline: real, a0: Acquisition) returns (a: Acquisition)
    requires Closed !in device.done
    requires Orderly(a0, false) && !a0.polled && a0.byteCount.None? && !a0.received
    requires a0.format.Some? && a0.format.value.sizeimage == buffer.Length
    requires device.lastRead.None?
    modifies buffer, device`lastRead, device`readReplies, device`polls, device`now
    ensures Orderly(a, true) && a.format == a0.format && a.byteCount == device.lastRead
    ensures a.capabilityQueried == a0.capabilityQueried && a.formatQueried == a0.formatQueried
    ensures device.lastRead.Some? ==> ReadyAfter(device.polls)
    ensures a0.reason != ReadwriteNotSupported ==> a.reason != ReadwriteNotSupported
    ensures device.script.Some? && device.script.value.now < deadline && device.script.value.poll.Events? ==>
              if JudgeEvents(device.script.value.poll.events).Some? then device.lastRead.None?
              else device.script.value.read.Count? ==> device.lastRead == Some(device.script.value.read.count)
  {
    var now := device.Monotonic();
    if now.None? {
      return a0.(reason := Unexpected);
    }
    if now.value >= deadline {
      return a0.(reason := Fault("validation_deadline_exceeded"));
    }
    var registered := device.Register();
    if !registered {
      return a0.(reason := Fault("poll_failed"));
    }
    var waited := PollReady(device, deadline);
    if waited.WaitRaised? {
      return a0.(reason := Unexpected);
    }
    if waited.reason.Some? {
      return a0.(reason := waited.reason.value, polled := waited.polled);
    }
    a := ReadFrame(device, buffer, deadline, a0.(polled := true));
  }

  /** Overwrites the buffer byte by byte; the view on it may be refused, and releasing it may fail. */
  method WipeBuffer(device: Device, buffer: array<Byte>) returns (wiped: bool)
    modifies buffer
    ensures device.script.Some? ==> wiped == device.script.value.wipes
    ensures wiped ==> forall i :: 0 <= i < buffer.Length ==> buffer[i] == 0
  {
    var viewed, released := device.ViewsBuffer();
    if !viewed {
      return false;
    }
    for i := 0 to buffer.Length
      invariant forall j :: 0 <= j < i ==> buffer[j] == 0
    {
      buffer[i] := 0;
    }
    var leftovers := exists i :: 0 <= i < buffer.Length && buffer[i] != 0;
    return !leftovers && released;
  }

  function FinalReason(a: Acquisition, buffered: bool, wiped: bool, closed: bool): Reason {
    if buffered && !wiped then WipeFailed
    else if a.received && wiped && !closed then CleanupUnconfirmed
    else if !closed then DescriptorCloseFailed
    else a.reason
  }

  function ResultOf(a: Acquisition, buffered: bool, wiped: bool, closed: bool): ProbeResult {
    ProbeResult(
      FinalReason(a, buffered, wiped, closed), true, closed, a.capabilityQueried, a.formatQueried,
      if buffered then Some(ReadWrite) else None, a.polled, a.readTried, a.received, a.byteCount,
      if a.format.Some? then Some(a.format.value.width) else None,
      if a.format.Some? then Some(a.format.value.height) else None,
      if a.format.Some? then Some(a.format.value.sizeimage) else None,
      wiped, closed && (!buffered || wiped), false, NO_STREAMING)
  }

  lemma ResultIsConsistent(a: Acquisition, buffered: bool, wiped: bool, closed: bool)
    requires Orderly(a, buffered) && (wiped ==> buffered)
    ensures Consistent(ResultOf(a, buffered, wiped, closed))
  {
  }

  /** What the final reason says: validated or not supported exactly if it is so and nothing failed in cleanup. */
  lemma ReasonMeans(a: Acquisition, buffered: bool, wiped: bool, closed: bool)
    requires Orderly(a, buffered) && (wiped ==> buffered)
    requires buffered ==> a.reason != ReadwriteNotSupported
    ensures FinalReason(a, buffered, wiped, closed) == Validated <==> a.received && wiped && closed
    ensures FinalReason(a, buffered, wiped, closed) == ReadwriteNotSupported <==> a.reason == ReadwriteNotSupported && closed
  {
  }

  /** What the frame was read from, if there is one: the device was found readable, and the buffer fits the format. */
  ghost predicate FrameFits(device: Device, frame: array?<Byte>, format: Option<Format>)
    reads device`lastRead, device`polls
  {
    && (device.lastRead.Some? ==> frame != null && ReadyAfter(device.polls))
    && (frame != null ==> format.Some? && frame.Length == format.value.sizeimage)
  }

  ghost function FrameSize(device: Device, frame: array<Byte>, format: Option<Format>): (size: int)
    requires FrameFits(device, frame, format)
    reads device`lastRead, device`polls
    ensures format.Some? && size == frame.Length == format.value.sizeimage
  {
    frame.Length
  }

  lemma NothingIsRead(device: Device, format: Option<Format>)
    requires device.lastRead.None?
    ensures FrameFits(device, null, format)
  {
  }

  lemma FormatIsShown(a: Acquisition, buffered: bool, wiped: bool, closed: bool, replies: map<Request, seq<Byte>>)
    requires a.format == FormatOf(replies)
    ensures ShowsFormat(ResultOf(a, buffered, wiped, closed), replies)
  {
    hide ParseFormat, FinalReason;
  }

  /** A frame is received exactly if its byte count fits the buffer. */
  lemma ReceivedMeans(a: Acquisition, size: int)
    requires Orderly(a, true) && a.format.Some? && a.format.value.sizeimage == size
    ensures a.received <==> a.byteCount.Some? && 1 <= a.byteCount.value <= size
  {
  }

  lemma NothingReceived(a: Acquisition)
    requires Orderly(a, false)
    ensures !a.received
  {
  }

  /** What becomes of the frame that a script announces. */
  ghost predicate FollowsScript(device: Device)
    reads device`lastRead
  {
    device.script.Some? && device.script.value.poll.Events? ==>
      if JudgeEvents(device.script.value.poll.events).Some? then device.lastRead.None?
      else device.script.value.read.Count? ==> device.lastRead == Some(device.script.value.read.count)
  }

  /** From the buffer to its wipe. */
  method UseBuffer(device: Device, deadline: real, a0: Acquisition) returns (a: Acquisition, frame: array?<Byte>, wiped: bool)
    requires Closed !in device.done && device.lastRead.None?
    requires Orderly(a0, false) && !a0.polled && a0.byteCount.None? && !a0.received && a0.format.Some?
    requires a0.reason != ReadwriteNotSupported
    modifies device`lastRead, device`readReplies, device`polls, device`now
    ensures Orderly(a, frame != null) && a.format == a0.format && a.byteCount == device.lastRead
    ensures a.capabilityQueried == a0.capabilityQueried && a.formatQueried == a0.formatQueried
    ensures (wiped ==> frame != null) && a.reason != ReadwriteNotSupported
    ensures frame != null && wiped ==> forall i :: 0 <= i < frame.Length ==> frame[i] == 0
    ensures FrameFits(device, frame, a.format) && (frame != null ==> fresh(frame))
    ensures device.script.Some? && device.script.value.now < deadline ==>
              frame != null && wiped == device.script.value.wipes && FollowsScript(device)
  {
    hide JudgeEvents, ReadyAfter;
    a, frame, wiped := a0, null, false;
    var canAllocate := device.Allocates();
    if canAllocate {
      var buffer := new Byte[a.format.value.sizeimage];
      frame := buffer;
      a := Acquire(device, buffer, deadline, a);
      wiped := WipeBuffer(device, buffer);
    } else {
      a := a.(reason := Fault("frame_buffer_allocation_failed"));
    }
  }

  /** Everything before the descriptor is closed. */
  method TryFrame(device: Device, deadline: real) returns (a: Acquisition, frame: array?<Byte>, wiped: bool)
    requires device.Untouched() && device.limit == MAX_IOCTLS
    modifies device`done, device`ioctls, device`replies, device`answers, device`now, device`descriptor, device`lastRead,
      device`readReplies, device`polls
    ensures Orderly(a, frame != null) && a.format == FormatOf(device.replies) && a.byteCount == device.lastRead
    ensures Closed !in device.done && device.ioctls <= MAX_IOCTLS
    ensures a.capabilityQueried == (Did(QueryCap) in device.done) && a.formatQueried == (Did(GetFormat) in device.done)
    ensures a.reason == ReadwriteNotSupported <==> LacksReadWrite(device.replies)
    ensures frame != null ==> a.reason != ReadwriteNotSupported && fresh(frame)
    ensures MayBeAsked(device, device.replies) && IsAsked(device, deadline, device.replies)
    ensures (wiped ==> frame != null) && FrameFits(device, frame, a.format)
    ensures frame != null && wiped ==> forall i :: 0 <= i < frame.Length ==> frame[i] == 0
    ensures a.received <==> frame != null && device.lastRead.Some? && 1 <= device.lastRead.value <= frame.Length
    ensures Obliging(device, deadline) ==>
              && frame != null && wiped == device.script.value.wipes && FollowsScript(device)
              && a.format == Some(ParseFormat(device.script.value.ioctl(GetFormat).response).value)
  {
    hide LacksReadWrite, ParseFormat, FrameFits, FollowsScript, Orderly, MayBeAsked, IsAsked, FormatOf;
    frame, wiped := null, false;
    var ready;
    a, ready := QueryDevice(device, deadline);
    NothingIsRead(device, a.format);
    if ready {
      a, frame, wiped := UseBuffer(device, deadline, a);
    }
    if frame == null {
      NothingReceived(a);
    } else {
      ReceivedMeans(a, FrameSize(device, frame, a.format));
    }
  }

  /**
   * The probe on an open device.  Whatever the device answers, the result passes its validator, says
   * truthfully what was done, and no byte of a frame is left behind when it says so.  Only a readable
   * character device that offers read/write access is read from, and a frame is received exactly if
   * the last read filled at least a byte of the buffer and no more than it holds.
   */
  method ProbeOpened(device: Device, deadline: real) returns (result: ProbeResult, frame: array?<Byte>)
    requires device.Untouched() && device.limit == MAX_IOCTLS
    modifies device
    ensures Consistent(result) && result.deviceOpened
    ensures ShowsFormat(result, device.replies) && result.byteCount == device.lastRead
    ensures device.ioctls <= MAX_IOCTLS
    ensures result.closed == (Closed in device.done)
    ensures result.capabilityQueried == (Did(QueryCap) in device.done)
    ensures result.formatQueried == (Did(GetFormat) in device.done)
    ensures result.acquisition.Some? <==> frame != null
    ensures frame != null && result.wiped ==> forall i :: 0 <= i < frame.Length ==> frame[i] == 0
    ensures result.received <==> frame != null && device.lastRead.Some? && 1 <= device.lastRead.value <= frame.Length
    ensures MayBeAsked(device, device.replies) && FrameFits(device, frame, FormatOf(device.replies))
    ensures result.reason == Validated <==> result.received && result.wiped && result.closed
    ensures result.reason == ReadwriteNotSupported <==> LacksReadWrite(device.replies) && result.closed
    ensures IsAsked(device, deadline, device.replies)
    ensures device.script.Some? ==> result.closed == device.script.value.closes
    ensures Obliging(device, deadline) ==>
              && frame != null && result.wiped == device.script.value.wipes
              && FollowsScript(device)
              && FormatOf(device.replies) == Some(ParseFormat(device.script.value.ioctl(GetFormat).response).value)
  {
    hide Consistent, LacksReadWrite, ParseFormat, FrameFits, FollowsScript, ShowsFormat, Orderly, FinalReason, MayBeAsked, IsAsked,
      FormatOf, Obliging;
    var a, wiped;
    a, frame, wiped := TryFrame(device, deadline);
    var closed := device.Close();
    ResultIsConsistent(a, frame != null, wiped, closed);
    ReasonMeans(a, frame != null, wiped, closed);
    FormatIsShown(a, frame != null, wiped, closed, device.replies);
    result := ResultOf(a, frame != null, wiped, closed);
  }
}
