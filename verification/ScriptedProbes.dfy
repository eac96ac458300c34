/**
 * The memory-mapping probe on devices that cooperate: what it reports follows from their answers alone.
 * Among them are devices of both kinds whose result fails its validator.
 */
module ScriptedProbes {
  import opened Wrappers
  import opened FrameResults
  import opened CaptureDevice
  import opened FrameProbing
  import opened StreamingProbe

  // ---------- What a cooperating device makes the probe report ----------

  /** The device does its part up to the start of the stream, answers the poll and the dequeue, and stops. */
  predicate PlaysAlong(s: Script) {
    && DescribesItself(s) && Streams(s)
    && s.poll.Events? && (Ready(s) ==> s.ioctl(DequeueBuffer).Done?)
    && s.cleanup(StreamOff).Done?
  }

  /** The poll reports a frame. */
  predicate Ready(s: Script)
    requires s.poll.Events?
  {
    JudgeEvents(s.poll.events).None?
  }

  /** The answers about the frame. */
  function Answers(s: Script): map<Request, seq<Byte>>
    requires PlaysAlong(s)
  {
    var setup := map[GetFormat := s.ioctl(GetFormat).response, QueryBuffer := s.ioctl(QueryBuffer).response];
    if Ready(s) then setup[DequeueBuffer := s.ioctl(DequeueBuffer).response] else setup
  }

  /** Nothing that cleanup tries fails. */
  predicate CleansUp(s: Script) {
    s.wipes && s.unmaps && s.cleanup(ReleaseBuffers).Done? && s.closes
  }

  /** The descriptor cannot be closed, and neither can the mapping and the buffers all be given back. */
  predicate Sticks(s: Script) {
    s.wipes && !s.closes && !(s.unmaps && s.cleanup(ReleaseBuffers).Done?)
  }

  lemma FrameFromScript(device: Device, replies: map<Request, seq<Byte>>)
    requires device.script.Some? && PlaysAlong(device.script.value) && FrameAnswered(device, replies)
    ensures FrameAnswer(replies) == FrameAnswer(Answers(device.script.value))
    ensures BuffersNegotiated(replies)
  {
    hide ParseFormat, ParseBuffer, IsMmapBuffer, U32, JudgeEvents, EffectiveCapabilities, HasBit, BufferCount;
    var s := device.script.value;
    assert GetFormat in BEFORE_STREAM && RequestBuffers in BEFORE_STREAM && QueryBuffer in BEFORE_STREAM;
    assert s.ioctl(GetFormat) == Done(replies[GetFormat]) && s.ioctl(QueryBuffer) == Done(replies[QueryBuffer]);
    if Ready(s) {
      assert DequeueBuffer in {DequeueBuffer};
      assert s.ioctl(DequeueBuffer) == Done(replies[DequeueBuffer]);
    }
  }

  /**
   * A cooperating device is validated exactly if its frame fits and everything can be cleaned up; its result
   * fails the validator exactly if it delivers more than it mapped, or delivers nothing and sticks.
   */
  method ProbeCooperating(s: Script, deadline: real) returns (result: ProbeResult)
    requires s.now < deadline && PlaysAlong(s)
    ensures result.reason == Validated <==> FrameDelivered(Answers(s)) && CleansUp(s)
    ensures result.received <==> FrameDelivered(Answers(s))
    ensures result.cleanedUp <==> CleansUp(s)
    ensures Consistent(result) <==> !FrameBeyondMapping(Answers(s)) && !(!FrameDelivered(Answers(s)) && Sticks(s))
  {
    hide DescribesItself, Streams, FrameAnswer, BuffersNegotiated, Consistent, FrameAnswered, ShowsFormat, ShowsFrame, Answers;
    var device := new Device.Scripted(MAX_IOCTLS, s);
    result := ProbeOpened(device, deadline);
    FrameFromScript(device, device.replies);
  }

  // ---------- Devices of both exceptional kinds ----------

  function ByteOf(n: nat, i: nat): Byte {
    if i == 0 then n % 0x100
    else if i == 1 then n / 0x100 % 0x100
    else if i == 2 then n / 0x1_0000 % 0x100
    else n / 0x100_0000 % 0x100
  }

  /** A response of zeros but for the given little-endian words. */
  function Response(size: nat, words: map<nat, nat>): (response: seq<Byte>)
    ensures |response| == size
  {
    seq(size, i requires 0 <= i < size => var at := i - i % 4; if at in words then ByteOf(words[at], i % 4) else 0)
  }

  lemma ByteAt(size: nat, words: map<nat, nat>, at: nat, i: nat)
    requires at % 4 == 0 && at + 4 <= size && i < 4
    ensures Response(size, words)[at + i] == ByteOf(if at in words then words[at] else 0, i)
  {
    hide ByteOf;
    assert (at + i) % 4 == i;
    ByteOfZero(i);
  }

  lemma ByteOfZero(i: nat)
    ensures ByteOf(0, i) == 0
  {
  }

  lemma WordOf(size: nat, words: map<nat, nat>, at: nat)
    requires at % 4 == 0 && at + 4 <= size
    requires at in words ==> words[at] < 0x1_0000_0000
    ensures U32(Response(size, words), at) == if at in words then words[at] else 0
  {
    hide Response, ByteOf;
    var n := if at in words then words[at] else 0;
    ByteAt(size, words, at, 0);
    ByteAt(size, words, at, 1);
    ByteAt(size, words, at, 2);
    ByteAt(size, words, at, 3);
    BytesAddUp(n);
  }

  lemma BytesAddUp(n: nat)
    requires n < 0x1_0000_0000
    ensures ByteOf(n, 0) as int + 0x100 * ByteOf(n, 1) as int + 0x1_0000 * ByteOf(n, 2) as int + 0x100_0000 * ByteOf(n, 3) as int == n
  {
    var a, b, c := n / 0x100, n / 0x1_0000, n / 0x100_0000;
    Quotients(n);
    assert ByteOf(n, 0) == n - 0x100 * a && ByteOf(n, 1) == a - 0x100 * b && ByteOf(n, 2) == b - 0x100 * c && ByteOf(n, 3) == c;
  }

  lemma Quotients(n: nat)
    requires n < 0x1_0000_0000
    ensures n % 0x100 == n - 0x100 * (n / 0x100)
    ensures n / 0x100 % 0x100 == n / 0x100 - 0x100 * (n / 0x1_0000)
    ensures n / 0x1_0000 % 0x100 == n / 0x1_0000 - 0x100 * (n / 0x100_0000)
    ensures n / 0x100_0000 % 0x100 == n / 0x100_0000
  {
  }

  const VGA_FORMAT := Format(640, 480, 614400)

  function FormatResponse(): seq<Byte> {
    Response(FORMAT_SIZE, map[0 := VIDEO_CAPTURE, 8 := 640, 12 := 480, 28 := 614400])
  }

  /** A description of a mapped buffer: bytes used and length. */
  function BufferResponse(used: nat, length: nat): seq<Byte> {
    Response(BUFFER_SIZE, map[4 := VIDEO_CAPTURE, 8 := used, 60 := MEMORY_MMAP, 72 := length])
  }

  lemma FormatIsParsed()
    ensures ParseFormat(FormatResponse()) == Success(VGA_FORMAT)
  {
    hide Response, U32;
    var words := map[0 := VIDEO_CAPTURE, 8 := 640, 12 := 480, 28 := 614400];
    WordOf(FORMAT_SIZE, words, 0);
    WordOf(FORMAT_SIZE, words, 8);
    WordOf(FORMAT_SIZE, words, 12);
    WordOf(FORMAT_SIZE, words, 28);
  }

  lemma BufferIsParsed(used: nat, length: nat)
    requires used < 0x1_0000_0000 && 1 <= length <= MAX_MMAP_LENGTH
    ensures ParseBuffer(BufferResponse(used, length)) == Success(length)
    ensures IsMmapBuffer(BufferResponse(used, length)) && U32(BufferResponse(used, length), 8) == used
  {
    hide Response, U32;
    var words: map<nat, nat> := map[4 := VIDEO_CAPTURE, 8 := used, 60 := MEMORY_MMAP, 72 := length];
    WordOf(BUFFER_SIZE, words, 0);
    WordOf(BUFFER_SIZE, words, 4);
    WordOf(BUFFER_SIZE, words, 8);
    WordOf(BUFFER_SIZE, words, 60);
    WordOf(BUFFER_SIZE, words, 72);
  }

  /** A capture device that streams. */
  function CapabilityResponse(): seq<Byte> {
    Response(CAPABILITY_SIZE, map[84 := CAP_STREAMING + CAP_VIDEO_CAPTURE])
  }

  lemma CapabilitiesAreParsed()
    ensures EffectiveCapabilities(CapabilityResponse()) == Some(CAP_STREAMING + CAP_VIDEO_CAPTURE)
    ensures HasBit(CAP_STREAMING + CAP_VIDEO_CAPTURE, CAP_VIDEO_CAPTURE) && HasBit(CAP_STREAMING + CAP_VIDEO_CAPTURE, CAP_STREAMING)
  {
    hide U32;
    WordOf(CAPABILITY_SIZE, map[84 := CAP_STREAMING + CAP_VIDEO_CAPTURE], 84);
    assert !HasBit(CAP_STREAMING + CAP_VIDEO_CAPTURE, CAP_DEVICE_CAPS);
  }

  /** One buffer of `length` bytes for VGA images, and a frame of `used` bytes. */
  function AnswerOf(length: nat, used: nat, request: Request): Reply {
    match request
    case QueryCap => Done(CapabilityResponse())
    case GetFormat => Done(FormatResponse())
    case RequestBuffers => Done(Response(20, map[0 := 1]))
    case QueryBuffer => Done(BufferResponse(0, length))
    case DequeueBuffer => Done(BufferResponse(used, length))
    case _ => Done([])
  }

  function ScriptOf(length: nat, used: nat, poll: PollReply, released: bool, closes: bool): Script {
    Script(
      0.0, true, request => AnswerOf(length, used, request), Some(true), poll, ReadRaised,
      request => if request == ReleaseBuffers && !released then Failed(OtherErrno) else Done([]), true, true, closes)
  }

  lemma ScriptPlaysAlong(length: nat, used: nat, poll: PollReply, released: bool, closes: bool)
    requires 1 <= length <= MAX_MMAP_LENGTH && used < 0x1_0000_0000 && poll.Events?
    ensures PlaysAlong(ScriptOf(length, used, poll, released, closes))
    ensures FrameAnswer(Answers(ScriptOf(length, used, poll, released, closes))) ==
              if JudgeEvents(poll.events).None? then Some((614400, length, used)) else None
    ensures ScriptOf(length, used, poll, released, closes).now == 0.0
    ensures CleansUp(ScriptOf(length, used, poll, released, closes)) <==> released && closes
    ensures Sticks(ScriptOf(length, used, poll, released, closes)) <==> !released && !closes
  {
    hide FormatResponse, BufferResponse, CapabilityResponse, Response, U32, ParseFormat, ParseBuffer, IsMmapBuffer,
      EffectiveCapabilities, HasBit, JudgeEvents;
    FormatIsParsed();
    BufferIsParsed(0, length);
    BufferIsParsed(used, length);
    CapabilitiesAreParsed();
    WordOf(20, map[0 := 1], 0);
  }

  const FRAME_IS_THERE: PollReply := Events([PollEvent(true, POLLIN)])
  const TIMED_OUT: PollReply := Events([])

  /** A driver that gives one page to map and then claims a frame of two; everything is cleaned up. */
  method FrameBeyondMappingArises() returns (result: ProbeResult)
    ensures !Consistent(result) && result.cleanedUp && !result.received
  {
    hide Consistent, ScriptOf, PlaysAlong, Answers, FrameAnswer;
    ScriptPlaysAlong(4096, 8192, FRAME_IS_THERE, true, true);
    result := ProbeCooperating(ScriptOf(4096, 8192, FRAME_IS_THERE, true, true), 1.0);
  }

  /** A poll that times out, then a release of the buffers that fails, and a close that fails. */
  method StuckWithoutFrameArises() returns (result: ProbeResult)
    ensures !Consistent(result) && !result.cleanedUp && !result.received
  {
    hide Consistent, ScriptOf, PlaysAlong, Answers, FrameAnswer;
    ScriptPlaysAlong(614400, 0, TIMED_OUT, false, false);
    result := ProbeCooperating(ScriptOf(614400, 0, TIMED_OUT, false, false), 1.0);
  }
}
