/** The closed registry of normalized reasons (health_history/reasons.py): codes without the component's name. */
module ReasonCodes {
  import opened HealthModels
  import opened Json

  /** What every component but the Raspberry Pi can report without having been probed, or when all is well. */
  predicate IsFixedCode(code: string) {
    code in ["disabled", "collector_failed", "healthy"]
  }

  predicate IsConnectionFailure(code: string) {
    code in ["connection_failed", "timeout", "redirect_rejected"]
  }

  predicate IsResponseFailure(code: string) {
    code in ["http_error", "response_too_large", "invalid_json", "invalid_response"]
  }

  predicate IsNetworkFailure(code: string) {
    IsConnectionFailure(code) || IsResponseFailure(code)
  }

  /** WLED is asked twice, for its info and for its state. */
  predicate IsWledCode(code: string) {
    || code == "info.led_count_mismatch"
    || ("info." <= code && IsNetworkFailure(code[5..]))
    || ("state." <= code && IsNetworkFailure(code[6..]))
  }

  predicate IsServerCode(code: string) {
    code in ["authorization_required", "server_reported_failure"]
  }

  predicate IsInactiveCode(code: string) {
    code in ["instance_inactive", "video_grabber_inactive", "led_output_inactive"]
  }

  predicate IsMissingCaptureCode(code: string) {
    code in ["unsupported_platform", "device_not_found", "probe_failed", "symlink_resolution_failed"]
  }

  predicate IsWrongCaptureCode(code: string) {
    code in ["invalid_device_target", "not_character_device", "v4l2_registration_missing"]
  }

  predicate IsUnreadableCaptureCode(code: string) {
    code in ["metadata_unavailable", "invalid_device_name", "permission_denied"]
  }

  predicate IsActivityCode(code: string) {
    code in ["grabber_inactive", "activity_unreported"]
  }

  predicate IsCaptureCode(code: string) {
    IsMissingCaptureCode(code) || IsWrongCaptureCode(code) || IsUnreadableCaptureCode(code) || IsActivityCode(code)
  }

  predicate IsRaspberryPiCode(code: string) {
    code in ["collector_failed", "healthy", "degraded", "unavailable"]
  }

  predicate IsCode(component: ComponentName, code: string) {
    match component
    case Wled => IsFixedCode(code) || IsWledCode(code)
    case HyperHdr => IsFixedCode(code) || IsNetworkFailure(code) || IsServerCode(code) || IsInactiveCode(code)
    case Capture => IsFixedCode(code) || IsCaptureCode(code)
    case RaspberryPi => IsRaspberryPiCode(code)
  }

  // ---------- Every registered code is written in JSON as it is ----------

  lemma JoinedIsPlain(s: string, t: string)
    requires IsPlain(s) && IsPlain(t)
    ensures IsPlain(s + t)
  {
  }

  lemma FixedIsPlain(code: string)
    requires IsFixedCode(code)
    ensures IsPlain(code)
  {
  }

  lemma RaspberryPiCodeIsPlain(code: string)
    requires IsRaspberryPiCode(code)
    ensures IsPlain(code)
  {
  }

  lemma ConnectionFailureIsPlain(code: string)
    requires IsConnectionFailure(code)
    ensures IsPlain(code)
  {
  }

  lemma ResponseFailureIsPlain(code: string)
    requires IsResponseFailure(code)
    ensures IsPlain(code)
  {
  }

  lemma NetworkFailureIsPlain(code: string)
    requires IsNetworkFailure(code)
    ensures IsPlain(code)
  {
    hide IsConnectionFailure, IsResponseFailure, IsPlain;
    if IsConnectionFailure(code) {
      ConnectionFailureIsPlain(code);
    } else {
      ResponseFailureIsPlain(code);
    }
  }

  lemma PrefixesArePlain()
    ensures IsPlain("info.") && IsPlain("state.") && IsPlain("info.led_count_mismatch")
  {
  }

  lemma WledCodeIsPlain(code: string)
    requires IsWledCode(code)
    ensures IsPlain(code)
  {
    hide IsNetworkFailure, IsPlain;
    PrefixesArePlain();
    if "info." <= code && IsNetworkFailure(code[5..]) {
      NetworkFailureIsPlain(code[5..]);
      JoinedIsPlain("info.", code[5..]);
      assert code == "info." + code[5..];
    } else if "state." <= code && IsNetworkFailure(code[6..]) {
      NetworkFailureIsPlain(code[6..]);
      JoinedIsPlain("state.", code[6..]);
      assert code == "state." + code[6..];
    }
  }

  lemma ServerCodeIsPlain(code: string)
    requires IsServerCode(code)
    ensures IsPlain(code)
  {
  }

  lemma InactiveCodeIsPlain(code: string)
    requires IsInactiveCode(code)
    ensures IsPlain(code)
  {
  }

  lemma MissingCaptureCodeIsPlain(code: string)
    requires IsMissingCaptureCode(code)
    ensures IsPlain(code)
  {
  }

  lemma WrongCaptureCodeIsPlain(code: string)
    requires IsWrongCaptureCode(code)
    ensures IsPlain(code)
  {
  }

  lemma UnreadableCaptureCodeIsPlain(code: string)
    requires IsUnreadableCaptureCode(code)
    ensures IsPlain(code)
  {
  }

  lemma ActivityCodeIsPlain(code: string)
    requires IsActivityCode(code)
    ensures IsPlain(code)
  {
  }

  lemma CodesArePlain(component: ComponentName, code: string)
    requires IsCode(component, code)
    ensures IsPlain(code)
  {
    hide IsPlain, IsFixedCode, IsWledCode, IsNetworkFailure, IsServerCode, IsInactiveCode, IsMissingCaptureCode, IsWrongCaptureCode,
      IsUnreadableCaptureCode, IsActivityCode, IsRaspberryPiCode;
    if IsFixedCode(code) { FixedIsPlain(code); }
    if IsRaspberryPiCode(code) { RaspberryPiCodeIsPlain(code); }
    if IsWledCode(code) { WledCodeIsPlain(code); }
    if IsNetworkFailure(code) { NetworkFailureIsPlain(code); }
    if IsServerCode(code) { ServerCodeIsPlain(code); }
    if IsInactiveCode(code) { InactiveCodeIsPlain(code); }
    if IsMissingCaptureCode(code) { MissingCaptureCodeIsPlain(code); }
    if IsWrongCaptureCode(code) { WrongCaptureCodeIsPlain(code); }
    if IsUnreadableCaptureCode(code) { UnreadableCaptureCodeIsPlain(code); }
    if IsActivityCode(code) { ActivityCodeIsPlain(code); }
  }

  /** Two codes that every component has. */
  lemma CommonCodes(component: ComponentName)
    ensures IsCode(component, "healthy") && IsCode(component, "collector_failed")
  {
  }

  lemma DisabledIsCode()
    ensures IsCode(Wled, "disabled")
  {
  }
}
