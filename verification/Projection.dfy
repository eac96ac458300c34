/** Validated health projections and their canonical digest (health_history/projection.py). */
module Projection {
  import opened Wrappers
  import opened HealthModels
  import opened Json
  import opened ReasonCodes

  type Digest = seq<Byte>

  /** A normalized reason `component.code`. */
  datatype Reason = Reason(component: ComponentName, code: string) {
    /** The reason that a component is switched off on purpose. */
    predicate Disabled() {
      code == "disabled" && component != RaspberryPi
    }
  }

  datatype ComponentProjection = ComponentProjection(
    component: ComponentName,
    status: Status,
    reasons: seq<Reason>,
    checkedAt: int,
    latency: int,
    lastSuccessful: Option<int>)
  {
    predicate Valid() {
      && 1 <= |reasons| <= MaximumReasons(component)
      && (forall i, j :: 0 <= i < j < |reasons| ==> reasons[i] != reasons[j])
      && (forall i :: 0 <= i < |reasons| ==>
            reasons[i].component == component && IsCode(component, reasons[i].code))
      && IsTimestamp(checkedAt)
      && 0 <= latency <= MAX_COMPONENT_LATENCY_MS
      && (lastSuccessful.Some? ==> IsTimestamp(lastSuccessful.value))
    }

    predicate IntentionallyDisabled() {
      |reasons| == 1 && reasons[0].Disabled()
    }
  }

  datatype HealthProjection = HealthProjection(
    schemaVersion: int,
    sequence: int,
    observedAt: int,
    recordedAt: int,
    overall: Status,
    uptime: int,
    kind: SampleKind,
    missedIntervals: int,
    components: seq<ComponentProjection>,
    digest: Digest)

  /**
   * The digest of a projection.  Ingestion works the same for every such function; the one in
   * use is `CanonicalHash` of SHA-256.
   */
  type Hash = HealthProjection -> Digest

  function MaximumReasons(component: ComponentName): int {
    match component
    case Wled => 2
    case HyperHdr => 3
    case Capture => 2
    case RaspberryPi => 1
  }

  function Severity(status: Status): int {
    match status
    case Healthy => 0
    case Degraded => 1
    case Unavailable => 2
  }

  function Worse(a: Status, b: Status): Status {
    if Severity(b) > Severity(a) then b else a
  }

  function WorstStatus(components: seq<ComponentProjection>): (worst: Status)
    ensures components != [] ==> exists i :: 0 <= i < |components| && components[i].status == worst
    ensures forall i :: 0 <= i < |components| ==> Severity(components[i].status) <= Severity(worst)
  {
    if components == [] then Healthy
    else if |components| == 1 then components[0].status
    else
      var n := |components| - 1;
      Worse(WorstStatus(components[..n]), components[n].status)
  }

  /** Everything the projection checks about itself, except the digest. */
  predicate WellFormed(p: HealthProjection) {
    && p.schemaVersion == 1
    && 0 <= p.sequence <= MAX_OBSERVATION_SEQUENCE
    && IsTimestamp(p.observedAt)
    && IsTimestamp(p.recordedAt)
    && 0 <= p.uptime <= MAX_SERVICE_UPTIME_MS
    && IsCounter(p.missedIntervals)
    && |p.components| == COMPONENT_COUNT
    && (forall i :: 0 <= i < COMPONENT_COUNT ==>
          p.components[i].component == ComponentAt(i) && p.components[i].Valid())
    && p.overall == WorstStatus(p.components)
    && |p.digest| == PROJECTION_DIGEST_BYTES
  }

  /** What `validate_health_projection` accepts. */
  predicate ValidProjection(hash: Hash, p: HealthProjection) {
    WellFormed(p) && p.digest == hash(p)
  }

  // ---------- The canonical text ----------

  function ComponentValue(c: ComponentName): string {
    match c
    case Wled => "wled"
    case HyperHdr => "hyperhdr"
    case Capture => "capture"
    case RaspberryPi => "raspberry_pi"
  }

  function StatusValue(s: Status): string {
    match s
    case Healthy => "healthy"
    case Degraded => "degraded"
    case Unavailable => "unavailable"
  }

  function KindValue(k: SampleKind): string {
    match k
    case Transition => "transition"
    case Heartbeat => "heartbeat"
    case StartupGap => "startup_gap"
    case ClockDiscontinuity => "clock_discontinuity"
  }

  function ReasonValue(r: Reason): string {
    ComponentValue(r.component) + "." + r.code
  }

  function ReasonsJson(reasons: seq<Reason>): Json {
    Array(seq(|reasons|, i requires 0 <= i < |reasons| => Text(ReasonValue(reasons[i]))))
  }

  function ComponentJson(c: ComponentProjection): Json
    requires c.Valid()
  {
    Array([
      Text(ComponentValue(c.component)),
      Text(StatusValue(c.status)),
      ReasonsJson(c.reasons),
      Number(c.checkedAt),
      Number(c.latency),
      if c.lastSuccessful.None? then Null else Number(c.lastSuccessful.value)])
  }

  function CanonicalJson(p: HealthProjection): Json
    requires WellFormed(p)
  {
    Array([
      Number(1),
      Number(p.sequence),
      Number(p.observedAt),
      Text(StatusValue(p.overall)),
      Number(p.uptime),
      Text(KindValue(p.kind)),
      Number(p.missedIntervals),
      ComponentJson(p.components[0]),
      ComponentJson(p.components[1]),
      ComponentJson(p.components[2]),
      ComponentJson(p.components[3])])
  }

  function CanonicalText(p: HealthProjection): string
    requires WellFormed(p)
  {
    Encode(CanonicalJson(p))
  }

  /** The digest of the canonical text under a function on texts. */
  function CanonicalHash(sha: string -> Digest): Hash {
    (p: HealthProjection) => if WellFormed(p) then sha(CanonicalText(p)) else []
  }

  // ---------- Equal texts mean equal content ----------

  /** All that the digest speaks about: everything but the recording time and the digest itself. */
  function Content(p: HealthProjection): HealthProjection {
    p.(recordedAt := 0, digest := [])
  }

  lemma ReasonValuesDiffer(a: Reason, b: Reason)
    requires a.component == b.component && ReasonValue(a) == ReasonValue(b)
    ensures a == b
  {
    SameLengthSplit(ComponentValue(a.component) + ".", a.code, ComponentValue(b.component) + ".", b.code);
  }

  lemma ComponentIsPlain(c: ComponentName)
    ensures IsPlain(ComponentValue(c))
  {
    match c {
      case Wled =>
      case HyperHdr =>
      case Capture =>
      case RaspberryPi =>
    }
  }

  lemma StatusIsPlain(s: Status)
    ensures IsPlain(StatusValue(s))
  {
    match s {
      case Healthy =>
      case Degraded =>
      case Unavailable =>
    }
  }

  lemma KindIsPlain(k: SampleKind)
    ensures IsPlain(KindValue(k))
  {
    match k {
      case Transition =>
      case Heartbeat =>
      case StartupGap =>
      case ClockDiscontinuity =>
    }
  }

  lemma NamesDiffer(c: ComponentName, d: ComponentName, s: Status, t: Status, k: SampleKind, l: SampleKind)
    ensures ComponentValue(c) == ComponentValue(d) ==> c == d
    ensures StatusValue(s) == StatusValue(t) ==> s == t
    ensures KindValue(k) == KindValue(l) ==> k == l
  {
    assert ComponentValue(c)[0] == 'r' <==> c == RaspberryPi;
    assert StatusValue(s)[0] == 'd' <==> s == Degraded;
    assert KindValue(k)[0] == 't' <==> k == Transition;
    assert |ComponentValue(c)| == match c case Wled => 4 case HyperHdr => 8 case Capture => 7 case RaspberryPi => 12;
    assert |KindValue(k)| == match k case Transition => 10 case Heartbeat => 9 case StartupGap => 11 case ClockDiscontinuity => 19;
    assert |StatusValue(s)| == match s case Healthy => 7 case Degraded => 8 case Unavailable => 11;
  }

  lemma ReasonsAreEncodable(c: ComponentProjection)
    requires c.Valid()
    ensures Encodable(ReasonsJson(c.reasons))
  {
    hide IsCode, IsPlain, ComponentValue;
    forall i | 0 <= i < |c.reasons|
      ensures IsPlain(ReasonValue(c.reasons[i]))
    {
      ComponentIsPlain(c.component);
      CodesArePlain(c.component, c.reasons[i].code);
      DottedIsPlain(ComponentValue(c.component), c.reasons[i].code);
    }
  }

  lemma DottedIsPlain(s: string, t: string)
    requires IsPlain(s) && IsPlain(t)
    ensures IsPlain(s + "." + t)
  {
  }

  lemma ComponentIsEncodable(c: ComponentProjection)
    requires c.Valid()
    ensures Encodable(ComponentJson(c))
  {
    hide ComponentValue, StatusValue, ReasonsJson, IsPlain;
    ComponentIsPlain(c.component);
    StatusIsPlain(c.status);
    ReasonsAreEncodable(c);
  }

  lemma CanonicalIsEncodable(p: HealthProjection)
    requires WellFormed(p)
    ensures Encodable(CanonicalJson(p))
  {
    hide StatusValue, KindValue, ComponentJson, IsPlain;
    StatusIsPlain(p.overall);
    KindIsPlain(p.kind);
    forall i | 0 <= i < 4
      ensures Encodable(ComponentJson(p.components[i]))
    {
      ComponentIsEncodable(p.components[i]);
    }
  }

  lemma ReasonsInjective(component: ComponentName, a: seq<Reason>, b: seq<Reason>)
    requires forall i :: 0 <= i < |a| ==> a[i].component == component
    requires forall i :: 0 <= i < |b| ==> b[i].component == component
    requires ReasonsJson(a) == ReasonsJson(b)
    ensures a == b
  {
    var left, right := ReasonsJson(a).items, ReasonsJson(b).items;
    assert |a| == |left| == |right| == |b|;
    forall i | 0 <= i < |a|
      ensures a[i] == b[i]
    {
      assert left[i] == right[i];
      ReasonValuesDiffer(a[i], b[i]);
    }
  }

  lemma ComponentInjective(a: ComponentProjection, b: ComponentProjection)
    requires a.Valid() && b.Valid()
    requires ComponentJson(a) == ComponentJson(b)
    ensures a == b
  {
    var left, right := ComponentJson(a).items, ComponentJson(b).items;
    assert left[0] == right[0] && left[1] == right[1] && left[2] == right[2];
    assert left[3] == right[3] && left[4] == right[4] && left[5] == right[5];
    NamesDiffer(a.component, b.component, a.status, b.status, Transition, Transition);
    ReasonsInjective(a.component, a.reasons, b.reasons);
  }

  lemma CanonicalJsonInjective(p: HealthProjection, q: HealthProjection)
    requires WellFormed(p) && WellFormed(q)
    requires CanonicalJson(p) == CanonicalJson(q)
    ensures Content(p) == Content(q)
  {
    hide ComponentJson, StatusValue, KindValue, ComponentProjection.Valid, WorstStatus;
    var left, right := CanonicalJson(p).items, CanonicalJson(q).items;
    forall i | 0 <= i < 4
      ensures p.components[i] == q.components[i]
    {
      assert left[7 + i] == right[7 + i];
      ComponentInjective(p.components[i], q.components[i]);
    }
    assert p.components == q.components;
    assert left[1] == right[1] && left[2] == right[2] && left[3] == right[3];
    assert left[4] == right[4] && left[5] == right[5] && left[6] == right[6];
    NamesDiffer(Wled, Wled, p.overall, q.overall, p.kind, q.kind);
  }

  /** Two well-formed projections with one canonical text agree on everything the text covers. */
  lemma CanonicalTextIsInjective(p: HealthProjection, q: HealthProjection)
    requires WellFormed(p) && WellFormed(q)
    requires CanonicalText(p) == CanonicalText(q)
    ensures Content(p) == Content(q)
  {
    CanonicalIsEncodable(p);
    CanonicalIsEncodable(q);
    EncodingIsInjective(CanonicalJson(p), CanonicalJson(q));
    CanonicalJsonInjective(p, q);
  }

  /** Equal digests mean equal content, or two different texts with one digest. */
  lemma DigestMatchMeansSameContent(sha: string -> Digest, p: HealthProjection, q: HealthProjection)
    requires ValidProjection(CanonicalHash(sha), p) && ValidProjection(CanonicalHash(sha), q)
    ensures Content(p) == Content(q) ==> p.digest == q.digest
    ensures p.digest == q.digest ==>
              || Content(p) == Content(q)
              || (CanonicalText(p) != CanonicalText(q) && sha(CanonicalText(p)) == sha(CanonicalText(q)))
  {
    if CanonicalText(p) == CanonicalText(q) {
      CanonicalTextIsInjective(p, q);
    }
    if Content(p) == Content(q) {
      assert p.components == q.components;
      assert CanonicalJson(p) == CanonicalJson(q);
    }
  }
}
