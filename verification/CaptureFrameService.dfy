/** The capture-frame command: read/write first, memory mapping as a fallback, then the result validator's verdict. */
module CaptureFrameService {
  import opened Wrappers
  import opened FrameResults
  import opened CaptureDevice
  import opened FrameProbing
  import RW = ReadWriteProbe
  import MM = StreamingProbe

  const DEADLINE_SECONDS: real := 2.0

  /** What becomes of the way to an open descriptor: platform, target and the open call itself. */
  datatype Opening = UnsupportedAbi | Refused(code: string) | Opens

  /** Reads the clock and opens the target; the probe has two seconds from the reading. */
  method OpenTarget(device: Device, opening: Opening) returns (deadline: Result<real, Reason>)
    modifies device`now
    ensures deadline.Success? <==> opening.Opens? && device.now.Some?
    ensures deadline.Success? ==> deadline.value == device.now.value + 2.0
    ensures deadline.Failure? ==> if opening.Opens? then deadline.error == Unexpected else deadline.error != ReadwriteNotSupported
    ensures deadline.Failure? ==> deadline.error != Validated
    ensures device.script.Some? && opening.Opens? ==> deadline == Success(device.script.value.now + 2.0)
  {
    if opening.UnsupportedAbi? {
      return Failure(Fault("unsupported_abi"));
    }
    var now := device.Monotonic();
    if now.None? {
      return Failure(Unexpected);
    }
    return if opening.Refused? then Failure(Fault(opening.code)) else Success(now.value + DEADLINE_SECONDS);
  }

  /** The device was read into a buffer of its image size, without error and in full, and closed. */
  ghost predicate ReadWhole(device: Device)
    reads device
  {
    && Closed in device.done && device.lastRead.Some? && RW.FormatOf(device.replies).Some?
    && 1 <= device.lastRead.value <= RW.FormatOf(device.replies).value.sizeimage
  }

  /** The device delivered a mapped frame, and nothing of the mapping is left. */
  ghost predicate MappedWhole(device: Device)
    reads device
  {
    MM.FrameDelivered(device.replies) && MM.AllCleanedUp(device.done, device.replies)
  }

  /** The device offers no read/write access, and its descriptor is closed again. */
  ghost predicate LeavesMapping(device: Device)
    reads device
  {
    RW.LacksReadWrite(device.replies) && Closed in device.done
  }

  /** A scripted device with a frame to read. */
  predicate HasFrameToRead(s: Script) {
    && s.characterDevice && s.ioctl(QueryCap).Done? && s.ioctl(GetFormat).Done?
    && Offers(s.ioctl(QueryCap).response, 0x0100_0000) && ParseFormat(s.ioctl(GetFormat).response).Success?
    && s.poll.Events? && JudgeEvents(s.poll.events).None?
    && s.read.Count? && 1 <= s.read.count <= ParseFormat(s.ioctl(GetFormat).response).value.sizeimage
    && s.wipes && s.closes
  }

  /** A scripted device that captures frames, but offers no read/write access. */
  predicate OffersNoReading(s: Script) {
    && s.characterDevice && s.ioctl(QueryCap).Done? && s.closes
    && RW.LacksReadWrite(map[QueryCap := s.ioctl(QueryCap).response])
  }

  lemma LacksByScript(device: Device)
    requires device.script.Some? && OffersNoReading(device.script.value)
    requires QueryCap in device.replies && device.replies[QueryCap] == device.script.value.ioctl(QueryCap).response
    ensures RW.LacksReadWrite(device.replies)
  {
    RW.LacksAlike(map[QueryCap := device.script.value.ioctl(QueryCap).response], device.replies);
  }

  lemma OnlyAskedIsRead(device: Device)
    requires RW.MayBeAsked(device, device.replies) && LeavesMapping(device)
    ensures !ReadWhole(device)
  {
    hide Offers, ParseFormat, EffectiveCapabilities, HasBit;
  }

  method ProbeReadWrite(device: Device, opening: Opening) returns (result: ProbeResult)
    requires device.Untouched() && device.limit == RW.MAX_IOCTLS
    modifies device
    ensures Consistent(result) && (result.deviceOpened ==> opening.Opens?)
    ensures result.reason == ReadwriteNotSupported <==> LeavesMapping(device)
    ensures result.reason == Validated <==> ReadWhole(device) && result.wiped
    ensures LeavesMapping(device) ==> !ReadWhole(device)
    ensures result.deviceOpened || result.reason != Validated
    ensures opening.Opens? && device.script.Some? && HasFrameToRead(device.script.value) ==> result.reason == Validated
    ensures opening.Opens? && device.script.Some? && OffersNoReading(device.script.value) ==> LeavesMapping(device)
  {
    hide Consistent, Offers, ParseFormat, JudgeEvents, RW.LacksReadWrite, RW.MayBeAsked, ReadyAfter, ShowsFormat;
    NothingIsConsistent();
    var deadline := OpenTarget(device, opening);
    if deadline.Failure? {
      NothingIsAsked();
      return Unopened(deadline.error);
    }
    var frame;
    result, frame := RW.ProbeOpened(device, deadline.value);
    if LeavesMapping(device) {
      OnlyAskedIsRead(device);
    }
    if device.script.Some? && OffersNoReading(device.script.value) {
      LacksByScript(device);
    }
  }

  method ProbeMapped(device: Device, opening: Opening) returns (result: ProbeResult)
    requires device.Untouched() && device.limit == MM.MAX_IOCTLS
    modifies device
    ensures Consistent(result) <==> !MM.FrameBeyondMapping(device.replies) && !MM.StuckWithoutFrame(device.done, device.replies)
    ensures result.reason == Validated <==> MappedWhole(device)
    ensures result.deviceOpened ==> opening.Opens?
    ensures result.deviceOpened || result.reason != Validated
    ensures opening.Opens? && device.script.Some? ==> result.deviceOpened
    ensures opening.Opens? && device.script.Some? && MM.DescribesItself(device.script.value) && MM.Streams(device.script.value) ==>
              MM.GoesThrough(device, device.done, device.replies)
  {
    hide Consistent, MM.FrameDelivered, MM.FrameBeyondMapping, MM.StuckWithoutFrame, MM.AllCleanedUp, MM.GoesThrough,
      MM.DescribesItself, MM.Streams, MM.MayBeAsked, MM.FewBuffers, ShowsFormat, MM.ShowsFrame, ReadyAfter,
      MM.ClosedAndWholeImage;
    NothingIsConsistent();
    NothingIsDelivered();
    var deadline := OpenTarget(device, opening);
    if deadline.Failure? {
      return Unopened(deadline.error);
    }
    result := MM.ProbeOpened(device, deadline.value);
  }

  lemma NothingIsConsistent()
    ensures forall reason :: Consistent(Unopened(reason))
  {
  }

  lemma NothingIsAsked()
    ensures !RW.LacksReadWrite(map[])
  {
  }

  lemma NothingIsDelivered()
    ensures !MM.FrameDelivered(map[]) && !MM.FrameBeyondMapping(map[]) && !MM.StuckWithoutFrame({}, map[])
  {
  }

  datatype Health = HealthyState | DegradedState | UnhealthyState

  /** The verdict on a result: an inconsistent one counts as an unexpected failure. */
  function Verdict(r: ProbeResult): (Health, Reason) {
    if !Consistent(r) then (UnhealthyState, Unexpected)
    else if Healthy(r) then (HealthyState, r.reason)
    else if Degraded(r) then (DegradedState, r.reason)
    else (UnhealthyState, r.reason)
  }

  /** The verdict is good exactly for a frame that was received whole and left nothing behind. */
  lemma VerdictMeaning(r: ProbeResult)
    requires Consistent(r) && r.deviceOpened
    ensures Verdict(r).0 == HealthyState <==> r.received && r.cleanedUp
    ensures Verdict(r).0 == DegradedState ==> r.received && !r.closed && r.wiped
    ensures r.received && !r.cleanedUp ==> Verdict(r).0 != HealthyState
    ensures Verdict(r).1 == r.reason
  {
  }

  /** A consistent result is good exactly if its reason says so. */
  lemma VerdictIsGood(r: ProbeResult)
    requires r.deviceOpened || r.reason != Validated
    ensures Consistent(r) ==> Verdict(r).1 == r.reason && (Verdict(r).0 == HealthyState <==> r.reason == Validated)
    ensures !Consistent(r) ==> Verdict(r) == (UnhealthyState, Unexpected)
    ensures Verdict(r).0 == HealthyState ==> r.received && r.closed && r.wiped
  {
  }

  lemma DeliveredIsConsistent(done: set<Act>, replies: map<Request, seq<Byte>>)
    requires MM.FrameDelivered(replies)
    ensures !MM.FrameBeyondMapping(replies) && !MM.StuckWithoutFrame(done, replies)
  {
    hide MM.FrameAnswer;
  }

  /**
   * Read/write access first; the second descriptor is opened for memory mapping exactly if the device does not
   * offer that access.  The verdict is good exactly for a frame that one of the two ways delivered whole and
   * of which nothing is left.
   */
  method ValidateCaptureFrame(first: Device, second: Device, opening: Opening, reopening: Opening)
    returns (verdict: (Health, Reason), result: ProbeResult)
    requires first != second && first.Untouched() && second.Untouched()
    requires first.limit == RW.MAX_IOCTLS && second.limit == MM.MAX_IOCTLS
    modifies first, second
    ensures verdict == Verdict(result)
    ensures LeavesMapping(first) || second.Untouched()
    ensures LeavesMapping(first) && second.script.Some? ==> (result.deviceOpened <==> reopening.Opens?)
    ensures verdict.0 == HealthyState <==> (ReadWhole(first) && result.wiped) || MappedWhole(second)
    ensures verdict.0 == HealthyState ==> result.received && result.closed && result.wiped
    ensures Consistent(result) <==> !MM.FrameBeyondMapping(second.replies) && !MM.StuckWithoutFrame(second.done, second.replies)
    ensures verdict.1 != result.reason ==>
              MM.FrameBeyondMapping(second.replies) || MM.StuckWithoutFrame(second.done, second.replies)
    ensures opening.Opens? && first.script.Some? && HasFrameToRead(first.script.value) ==> verdict.0 == HealthyState
    ensures opening.Opens? && first.script.Some? && OffersNoReading(first.script.value) ==> LeavesMapping(first)
    ensures LeavesMapping(first) && reopening.Opens? && second.script.Some?
            && MM.DescribesItself(second.script.value) && MM.Streams(second.script.value) ==>
              MM.GoesThrough(second, second.done, second.replies)
  {
    hide Consistent, Healthy, Degraded, Verdict, HasFrameToRead, OffersNoReading, LeavesMapping, ReadWhole,
      MM.FrameDelivered, MM.FrameBeyondMapping, MM.StuckWithoutFrame, MM.AllCleanedUp, MM.GoesThrough, MM.DescribesItself, MM.Streams;
    NothingIsDelivered();
    result := ProbeReadWrite(first, opening);
    if result.reason == ReadwriteNotSupported {
      result := ProbeMapped(second, reopening);
    }
    verdict := Verdict(result);
    VerdictIsGood(result);
    if MappedWhole(second) {
      DeliveredIsConsistent(second.done, second.replies);
    }
  }
}
