/** The result of one capture-frame probe, and its separately written result validator (hardware/capture_frame.py). */
module FrameResults {
  import opened Wrappers

  const MAX_WIDTH: int := 8192
  const MAX_HEIGHT: int := 8192
  const MAX_SIZEIMAGE: int := 8 * 1024 * 1024

  /** Reasons the result validator knows by name, and all others by their code. */
  datatype Reason =
    | Validated
    | CleanupUnconfirmed
    | WipeFailed
    | StreamStopFailed
    | BufferUnmapFailed
    | BufferReleaseFailed
    | StreamingCleanupFailed
    | DescriptorCloseFailed
    | ReadwriteNotSupported
    | Unexpected
    | Fault(code: string)

  datatype Method = ReadWrite | Mmap

  datatype Format = Format(width: int, height: int, sizeimage: int) {
    predicate Bounded() {
      1 <= width <= MAX_WIDTH && 1 <= height <= MAX_HEIGHT && 1 <= sizeimage <= MAX_SIZEIMAGE
    }
  }

  datatype Streaming = Streaming(
    negotiated: bool,
    mapped: bool,
    queued: bool,
    started: bool,
    dequeueTried: bool,
    stopped: bool,
    unmapped: bool,
    released: bool)
  {
    predicate Any() {
      negotiated || mapped || queued || started || dequeueTried || stopped || unmapped || released
    }

    predicate All() {
      negotiated && mapped && queued && started && dequeueTried && stopped && unmapped && released
    }
  }

  const NO_STREAMING := Streaming(false, false, false, false, false, false, false, false)

  /** Width, height and image size come in separate fields, so any of them could be missing. */
  datatype ProbeResult = ProbeResult(
    reason: Reason,
    deviceOpened: bool,
    closed: bool,
    capabilityQueried: bool,
    formatQueried: bool,
    acquisition: Option<Method>,
    polled: bool,
    readTried: bool,
    received: bool,
    byteCount: Option<int>,
    width: Option<int>,
    height: Option<int>,
    sizeimage: Option<int>,
    wiped: bool,
    cleanedUp: bool,
    streamingUsed: bool,
    streaming: Streaming)

  /** A probe that ended before the device was opened. */
  function Unopened(reason: Reason): ProbeResult {
    ProbeResult(
      reason, false, false, false, false, None, false, false, false, None, None, None, None, false, false, false, NO_STREAMING)
  }

  predicate BoundedMetadata(r: ProbeResult) {
    && r.byteCount.Some? && r.width.Some? && r.height.Some? && r.sizeimage.Some?
    && Format(r.width.value, r.height.value, r.sizeimage.value).Bounded()
    && 1 <= r.byteCount.value <= r.sizeimage.value
  }

  /** The events that belong to a complete acquisition by this result's method. */
  predicate CompletePath(r: ProbeResult) {
    match r.acquisition
    case Some(ReadWrite) => r.readTried && !r.streamingUsed && !r.streaming.Any()
    case Some(Mmap) => r.streamingUsed && !r.readTried && r.streaming.All()
    case None => false
  }

  predicate Healthy(r: ProbeResult) {
    && r.reason == Validated && r.received && BoundedMetadata(r)
    && r.wiped && r.closed && r.cleanedUp && r.polled
    && CompletePath(r)
  }

  predicate Degraded(r: ProbeResult) {
    && r.reason == CleanupUnconfirmed && r.received && BoundedMetadata(r)
    && r.wiped && !r.closed && !r.cleanedUp && r.polled
    && CompletePath(r)
  }

  predicate StreamingCleanupReason(reason: Reason) {
    || reason == StreamStopFailed
    || reason == BufferUnmapFailed
    || reason == BufferReleaseFailed
    || reason == StreamingCleanupFailed
  }

  predicate DimensionsAbsent(r: ProbeResult) {
    r.width.None? && r.height.None? && r.sizeimage.None?
  }

  predicate DimensionsComplete(r: ProbeResult) {
    r.width.Some? && r.height.Some? && r.sizeimage.Some?
  }

  predicate NothingHappened(r: ProbeResult) {
    && !r.closed && !r.capabilityQueried && !r.formatQueried && r.acquisition.None?
    && !r.polled && !r.readTried && !r.received && r.byteCount.None? && DimensionsAbsent(r)
    && !r.wiped && !r.cleanedUp && !r.streaming.Any()
  }

  predicate ReadWriteOrder(r: ProbeResult) {
    && !r.streaming.Any()
    && (r.readTried ==> r.polled)
    && (r.byteCount.Some? ==> r.readTried)
    && (r.received ==> r.readTried)
  }

  predicate MmapOrder(r: ProbeResult) {
    var s := r.streaming;
    && !r.readTried
    && (s.mapped ==> s.negotiated)
    && (s.queued ==> s.mapped)
    && (s.started ==> s.queued)
    && (r.polled ==> s.started)
    && (s.dequeueTried ==> s.started && r.polled)
    && (s.stopped ==> s.started)
    && (s.unmapped ==> s.mapped)
    && (s.released ==> s.negotiated)
    && (r.wiped ==> s.mapped)
    && (r.byteCount.Some? ==> s.dequeueTried)
    && (r.received ==> s.dequeueTried)
  }

  predicate ExpectedCleanup(r: ProbeResult) {
    var s := r.streaming;
    match r.acquisition
    case None => r.closed
    case Some(ReadWrite) => r.closed && r.wiped
    case Some(Mmap) =>
      && r.closed
      && (!s.negotiated || s.released)
      && (!s.mapped || (r.wiped && s.unmapped))
      && (!s.started || s.stopped)
  }

  /** The fields fit each other, whatever the reason. */
  predicate FieldsFit(r: ProbeResult) {
    && (r.formatQueried ==> r.capabilityQueried)
    && (DimensionsComplete(r) || DimensionsAbsent(r))
    && (DimensionsComplete(r) ==>
          r.formatQueried && Format(r.width.value, r.height.value, r.sizeimage.value).Bounded())
    && (r.acquisition.Some? ==> r.formatQueried && DimensionsComplete(r))
    && (r.acquisition.None? ==>
          !r.polled && !r.readTried && !r.received && r.byteCount.None? && !r.wiped && !r.streaming.Any())
    && (r.received ==> BoundedMetadata(r))
    && (r.acquisition == Some(ReadWrite) ==> ReadWriteOrder(r))
    && (r.acquisition == Some(Mmap) ==> MmapOrder(r))
    && r.cleanedUp == ExpectedCleanup(r)
    && (!r.received && r.byteCount.Some? && r.sizeimage.Some? ==>
          !(1 <= r.byteCount.value <= r.sizeimage.value))
  }

  /** The reason fits the fields. */
  predicate ReasonFits(r: ProbeResult) {
    if r.reason == Validated then Healthy(r)
    else if r.reason == CleanupUnconfirmed then Degraded(r)
    else if r.received && StreamingCleanupReason(r.reason) then !r.cleanedUp
    else if r.received && r.wiped then false
    else if r.acquisition.Some? && !r.wiped && (r.acquisition == Some(ReadWrite) || r.streaming.mapped) then
      r.reason == WipeFailed
    else if r.reason == WipeFailed then false
    else if !r.closed then r.reason == DescriptorCloseFailed
    else if r.reason == DescriptorCloseFailed then false
    else r.cleanedUp || StreamingCleanupReason(r.reason)
  }

  predicate Consistent(r: ProbeResult) {
    && (r.streamingUsed <==> r.acquisition == Some(Mmap))
    && if !r.deviceOpened then NothingHappened(r) else FieldsFit(r) && ReasonFits(r)
  }
}
