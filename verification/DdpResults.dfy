/** The result of one DDP output probe, and its separately written result validator (hardware/ddp_output.py). */
module DdpResults {
  import opened Wrappers
  import opened DdpPackets

  datatype Reason =
    | Validated
    | CleanupUnconfirmed
    | ResolutionFailed
    | ResolutionAmbiguous
    | NotUnicast
    | SocketCreationFailed
    | TestDeadline
    | TestSendFailed
    | TestPartialSend
    | BlackoutDeadline
    | BlackoutSendFailed
    | BlackoutPartialSend
    | Unexpected

  datatype ProbeResult = ProbeResult(
    reason: Reason,
    created: bool,
    closed: bool,
    leds: Option<int>,
    frameBytes: int,
    testPlanned: int,
    testSent: int,
    blackoutPlanned: int,
    blackoutSent: int,
    testCompleted: bool,
    blackoutAttempted: bool,
    blackoutCompleted: bool,
    cleanedUp: bool,
    unsafeActivity: bool)

  predicate Complete(r: ProbeResult) {
    && r.testSent == r.testPlanned && r.blackoutSent == r.blackoutPlanned
    && r.testCompleted && r.blackoutAttempted && r.blackoutCompleted && r.created
  }

  predicate Healthy(r: ProbeResult) {
    r.reason == Validated && Complete(r) && r.closed && r.cleanedUp && !r.unsafeActivity
  }

  predicate Degraded(r: ProbeResult) {
    r.reason == CleanupUnconfirmed && Complete(r) && !r.closed && !r.cleanedUp && !r.unsafeActivity
  }

  predicate CountsFit(r: ProbeResult, leds: int) {
    && r.leds == Some(leds) && 1 <= leds <= MAX_LEDS
    && var expected := ExpectedPackets(leds * 3);
       && r.frameBytes == leds * 3
       && r.testPlanned == expected && r.blackoutPlanned == expected
       && 1 <= expected <= 2
       && 0 <= r.testSent <= expected && 0 <= r.blackoutSent <= expected
  }

  predicate FlagsFit(r: ProbeResult) {
    && r.testCompleted == (r.testSent == r.testPlanned)
    && r.blackoutCompleted == (r.blackoutAttempted && r.blackoutSent == r.blackoutPlanned)
    && (r.closed ==> r.created)
    && r.cleanedUp == r.closed
    && r.blackoutAttempted == r.created
    && (!r.created ==> r.testSent == 0 && r.blackoutSent == 0 && !r.testCompleted && !r.blackoutCompleted && !r.cleanedUp)
    && !r.unsafeActivity
  }

  predicate ReasonFits(r: ProbeResult) {
    match r.reason
    case Validated => Healthy(r)
    case CleanupUnconfirmed => Degraded(r)
    case ResolutionFailed => !r.created
    case ResolutionAmbiguous => !r.created
    case NotUnicast => !r.created
    case SocketCreationFailed => !r.created
    case TestDeadline => r.created && !r.testCompleted && r.blackoutCompleted
    case TestSendFailed => r.created && !r.testCompleted && r.blackoutCompleted
    case TestPartialSend => r.created && !r.testCompleted && r.blackoutCompleted
    case BlackoutDeadline => r.created && !r.blackoutCompleted
    case BlackoutSendFailed => r.created && !r.blackoutCompleted
    case BlackoutPartialSend => r.created && !r.blackoutCompleted
    case Unexpected => !r.created || !r.testCompleted || !r.blackoutCompleted
  }

  predicate Consistent(r: ProbeResult, leds: int) {
    CountsFit(r, leds) && FlagsFit(r) && ReasonFits(r)
  }
}
