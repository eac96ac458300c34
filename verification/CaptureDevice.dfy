/**
 * The V4L2 device as a probe meets it: every call may answer anything, unless the device follows a
 * script.  Ghost fields record what really happened; the preconditions say what a probe must never do.
 */
module CaptureDevice {
  import opened Wrappers
  import opened FrameResults

  datatype Request = QueryCap | GetFormat | RequestBuffers | ReleaseBuffers | QueryBuffer | QueueBuffer | StreamOn | DequeueBuffer | StreamOff

  datatype Errno = EINTR | ENOTTY | EINVAL | EAGAIN | NotSupported | OtherErrno

  /** `Raised` is any exception that is not an operating-system error. */
  datatype Reply = Done(response: seq<Byte>) | Failed(errno: Errno) | Raised

  datatype PollEvent = PollEvent(sameDescriptor: bool, mask: nat)

  datatype PollReply = Events(events: seq<PollEvent>) | PollFailed(errno: Errno) | PollRaised

  datatype ReadReply = Count(count: int) | ReadFailed(errno: Errno) | ReadRaised

  /** What has really been achieved on the device. */
  datatype Act = Did(request: Request) | Mapped | Unmapped | Wiped | Closed

  /** An attempt to clean up, and whether it succeeded. */
  datatype Attempted = Tried(act: Act, ok: bool)

  /** Answers that are fixed in advance, the same whenever the question is repeated. */
  datatype Script = Script(
    now: real,
    characterDevice: bool,
    ioctl: Request -> Reply,
    mapping: Option<bool>,
    poll: PollReply,
    read: ReadReply,
    cleanup: Request -> Reply,
    wipes: bool,
    unmaps: bool,
    closes: bool)

  class Device {
    /** How many ioctls a probe may issue before its cleanup. */
    const limit: nat
    const script: Option<Script>
    ghost var done: set<Act>
    ghost var ioctls: nat
    /** The response to each request that succeeded before cleanup, and the last byte count read. */
    ghost var replies: map<Request, seq<Byte>>
    ghost var lastRead: Option<int>
    /** Whether the descriptor is a character device, what the clock showed last, and all answers in turn. */
    ghost var descriptor: Option<bool>
    ghost var now: Option<real>
    ghost var answers: seq<Reply>
    ghost var polls: seq<PollReply>
    ghost var readReplies: seq<ReadReply>
    /** What was tried to clean up. */
    ghost var tried: set<Attempted>

    constructor (limit: nat)
      ensures this.limit == limit && Untouched()
    {
      this.limit, script := limit, None;
      done, ioctls, replies, lastRead := {}, 0, map[], None;
      descriptor, now, answers, polls, readReplies := None, None, [], [], [];
      tried := {};
    }

    constructor Scripted(limit: nat, script: Script)
      ensures this.limit == limit && this.script == Some(script) && Untouched()
    {
      this.limit, this.script := limit, Some(script);
      done, ioctls, replies, lastRead := {}, 0, map[], None;
      descriptor, now, answers, polls, readReplies := None, None, [], [], [];
      tried := {};
    }

    ghost predicate Untouched()
      reads this
    {
      done == {} && ioctls == 0 && replies == map[] && lastRead.None? && answers == [] && polls == [] && readReplies == [] && tried == {}
    }

    /** The device may still be writing to the mapped buffer. */
    ghost predicate MayWrite()
      reads this
    {
      Did(StreamOn) in done && Did(StreamOff) !in done && Closed !in done
    }

    method Monotonic() returns (t: Option<real>)
      modifies this`now
      ensures now == t
      ensures script.Some? ==> t == Some(script.value.now)
    {
      t := *;
      if script.Some? {
        t := Some(script.value.now);
      }
      now := t;
    }

    /** The clock was read and showed a time before the deadline. */
    ghost predicate Before(deadline: real)
      reads this`now
    {
      now.Some? && now.value < deadline
    }

    method Fstat() returns (isCharacterDevice: Result<bool, Reason>)
      modifies this`descriptor
      ensures descriptor == if isCharacterDevice.Success? then Some(isCharacterDevice.value) else None
      ensures isCharacterDevice.Failure? ==> isCharacterDevice.error == Unexpected || isCharacterDevice.error.Fault?
      ensures script.Some? ==> isCharacterDevice == Success(script.value.characterDevice)
    {
      var answer: Option<bool>, known: bool := *, *;
      isCharacterDevice :=
        if answer.Some? then Success(answer.value)
        else Failure(if known then Fault("descriptor_stat_failed") else Unexpected);
      if script.Some? {
        isCharacterDevice := Success(script.value.characterDevice);
      }
      descriptor := if isCharacterDevice.Success? then Some(isCharacterDevice.value) else None;
    }

    method Ioctl(request: Request, ghost deadline: real) returns (reply: Reply)
      requires Closed !in done && ioctls < limit && Before(deadline)
      modifies this`done, this`ioctls, this`replies, this`answers
      ensures answers == old(answers) + [reply]
      ensures ioctls == old(ioctls) + 1
      ensures done == if reply.Done? then old(done) + {Did(request)} else old(done)
      ensures replies == if reply.Done? then old(replies)[request := reply.response] else old(replies)
      ensures script.Some? ==> reply == script.value.ioctl(request)
    {
      reply := *;
      if script.Some? {
        reply := script.value.ioctl(request);
      }
      ioctls, answers := ioctls + 1, answers + [reply];
      if reply.Done? {
        done, replies := done + {Did(request)}, replies[request := reply.response];
      }
    }

    /** Cleanup may always try; it does not count against the limit. */
    method CleanupIoctl(request: Request) returns (reply: Reply)
      requires Closed !in done
      modifies this`done, this`tried
      ensures tried == old(tried) + {Tried(Did(request), reply.Done?)}
      ensures done == if reply.Done? then old(done) + {Did(request)} else old(done)
      ensures script.Some? ==> reply == script.value.cleanup(request)
    {
      reply := *;
      if script.Some? {
        reply := script.value.cleanup(request);
      }
      if reply.Done? {
        done := done + {Did(request)};
      }
      tried := tried + {Tried(Did(request), reply.Done?)};
    }

    method Register() returns (ok: bool)
      ensures script.Some? ==> ok
    {
      ok := *;
      ok := ok || script.Some?;
    }

    method Poll(ghost deadline: real) returns (reply: PollReply)
      requires Closed !in done && Before(deadline)
      modifies this`polls
      ensures polls == old(polls) + [reply]
      ensures script.Some? ==> reply == script.value.poll
    {
      reply := *;
      if script.Some? {
        reply := script.value.poll;
      }
      polls := polls + [reply];
    }

    /** Reads into the buffer, which may then hold anything. */
    method Read(buffer: array<Byte>, ghost deadline: real) returns (reply: ReadReply)
      requires Closed !in done && Before(deadline)
      modifies buffer, this`lastRead, this`readReplies
      ensures readReplies == old(readReplies) + [reply]
      ensures script.Some? ==> reply == script.value.read
      ensures lastRead == if reply.Count? then Some(reply.count) else None
    {
      for i := 0 to buffer.Length
        modifies buffer
      {
        buffer[i] := *;
      }
      reply := *;
      if script.Some? {
        reply := script.value.read;
      }
      readReplies := readReplies + [reply];
      lastRead := if reply.Count? then Some(reply.count) else None;
    }

    /** Whether memory for a frame can be had. */
    method Allocates() returns (ok: bool)
      ensures script.Some? ==> ok
    {
      ok := *;
      ok := ok || script.Some?;
    }

    /** Whether the frame buffer can be viewed for wiping, and let go afterwards. */
    method ViewsBuffer() returns (viewed: bool, released: bool)
      ensures script.Some? ==> (viewed && released <==> script.value.wipes)
    {
      viewed, released := *, *;
      if script.Some? {
        viewed, released := script.value.wipes, true;
      }
    }

    /** `None` is a mapping error, `Some(false)` any other exception. */
    method Map() returns (mapped: Option<bool>)
      requires Closed !in done && Mapped !in done
      modifies this`done
      ensures done == if mapped == Some(true) then old(done) + {Mapped} else old(done)
      ensures script.Some? ==> mapped == script.value.mapping
    {
      mapped := *;
      if script.Some? {
        mapped := script.value.mapping;
      }
      if mapped == Some(true) {
        done := done + {Mapped};
      }
    }

    /** The mapped buffer must not be touched while the device may write to it. */
    method WipeMapped() returns (ok: bool)
      requires Mapped in done && Unmapped !in done && !MayWrite()
      modifies this`done, this`tried
      ensures tried == old(tried) + {Tried(Wiped, ok)}
      ensures done == if ok then old(done) + {Wiped} else old(done)
      ensures script.Some? ==> ok == script.value.wipes
    {
      ok := *;
      if script.Some? {
        ok := script.value.wipes;
      }
      if ok {
        done := done + {Wiped};
      }
      tried := tried + {Tried(Wiped, ok)};
    }

    method Unmap() returns (ok: bool)
      requires Mapped in done && Unmapped !in done
      modifies this`done, this`tried
      ensures tried == old(tried) + {Tried(Unmapped, ok)}
      ensures done == if ok then old(done) + {Unmapped} else old(done)
      ensures script.Some? ==> ok == script.value.unmaps
    {
      ok := *;
      if script.Some? {
        ok := script.value.unmaps;
      }
      if ok {
        done := done + {Unmapped};
      }
      tried := tried + {Tried(Unmapped, ok)};
    }

    method Close() returns (ok: bool)
      requires Closed !in done
      modifies this`done, this`tried
      ensures tried == old(tried) + {Tried(Closed, ok)}
      ensures done == if ok then old(done) + {Closed} else old(done)
      ensures script.Some? ==> ok == script.value.closes
    {
      ok := *;
      if script.Some? {
        ok := script.value.closes;
      }
      if ok {
        done := done + {Closed};
      }
      tried := tried + {Tried(Closed, ok)};
    }
  }
}
