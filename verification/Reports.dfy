/**
 * From a health report to the projection that is submitted (`project_health_report` in
 * health_history/projection.py), and what ingestion answers to such projections.
 */
module Reports {
  import opened Wrappers
  import opened HealthModels
  import opened Json
  import opened ReasonCodes
  import opened Projection
  import opened HistoryTables
  import opened Ingestion
  import opened IngestionSafety
  import opened MixedRuns

  /** A report whose components are normalized already, in whatever order they were collected. */
  datatype Report = Report(overall: Status, observedAt: int, uptime: int, components: seq<ComponentProjection>) {
    /** Normalization accepts a `disabled` reason only together with status unavailable. */
    predicate Normalized() {
      forall i :: 0 <= i < |components| ==>
        components[i].Valid() && (components[i].IntentionallyDisabled() ==> components[i].status == Unavailable)
    }
  }

  function Named(components: seq<ComponentProjection>, name: ComponentName): (found: seq<ComponentProjection>)
    ensures forall i :: 0 <= i < |found| ==> found[i] in components && found[i].component == name
  {
    if components == [] then []
    else if components[0].component == name then [components[0]] + Named(components[1..], name)
    else Named(components[1..], name)
  }

  /** The components in the fixed order, if each of them is there exactly once. */
  function Ordered(components: seq<ComponentProjection>): (ordered: Option<seq<ComponentProjection>>)
    ensures ordered.Some? ==>
              && |ordered.value| == COMPONENT_COUNT
              && forall i :: 0 <= i < COMPONENT_COUNT ==>
                   ordered.value[i] in components && ordered.value[i].component == ComponentAt(i)
  {
    var wled, hyperHdr := Named(components, Wled), Named(components, HyperHdr);
    var capture, pi := Named(components, Capture), Named(components, RaspberryPi);
    if |components| == COMPONENT_COUNT && |wled| == |hyperHdr| == |capture| == |pi| == 1 then
      Some([wled[0], hyperHdr[0], capture[0], pi[0]])
    else
      None
  }

  const NO_DIGEST: Digest := seq(PROJECTION_DIGEST_BYTES, _ => 0)

  function ProjectHealthReport(
    sha: string -> Digest, report: Report, sequence: int, recordedAt: int, kind: SampleKind, missed: int)
    : Option<HealthProjection>
  {
    var ordered := Ordered(report.components);
    if ordered.None? then None
    else
      var draft := HealthProjection(
        1, sequence, report.observedAt, recordedAt, report.overall, report.uptime, kind, missed, ordered.value, NO_DIGEST);
      if WellFormed(draft) then Some(draft.(digest := sha(CanonicalText(draft)))) else None
  }

  ghost predicate DigestsAreFull(sha: string -> Digest) {
    forall text :: |sha(text)| == PROJECTION_DIGEST_BYTES
  }

  /** A projected report is valid, and it keeps what it was asked to carry. */
  lemma ProjectedIsValid(
    sha: string -> Digest, report: Report, sequence: int, recordedAt: int, kind: SampleKind, missed: int)
    requires DigestsAreFull(sha) && ProjectHealthReport(sha, report, sequence, recordedAt, kind, missed).Some?
    ensures var p := ProjectHealthReport(sha, report, sequence, recordedAt, kind, missed).value;
            && ValidProjection(CanonicalHash(sha), p)
            && p.sequence == sequence && p.recordedAt == recordedAt && p.kind == kind && p.missedIntervals == missed
            && p.observedAt == report.observedAt
            && (report.Normalized() ==> !DisabledButHealthy(p))
  {
    hide Encode;
    var p := ProjectHealthReport(sha, report, sequence, recordedAt, kind, missed).value;
    var draft := p.(digest := NO_DIGEST);
    assert |p.digest| == PROJECTION_DIGEST_BYTES;
    assert WellFormed(draft) && WellFormed(p);
    assert CanonicalJson(p) == CanonicalJson(draft);
    assert CanonicalText(p) == CanonicalText(draft);
    assert CanonicalHash(sha)(p) == p.digest;
    if report.Normalized() {
      forall i | 0 <= i < |p.components|
        ensures p.components[i].IntentionallyDisabled() ==> p.components[i].status == Unavailable
      {
        var c := p.components[i];
        assert c in report.components;
      }
    }
  }

  /**
   * Self-consistency as the source puts it: whatever was submitted and cleaned up before, a
   * projected report with a larger sequence is accepted, unless an alert has used up its
   * generations; and trust is never lost.
   */
  lemma ProjectedReportIsAccepted(
    sha: string -> Digest, operations: seq<Operation>,
    report: Report, sequence: int, recordedAt: int, kind: SampleKind, missed: int)
    requires DigestsAreFull(sha) && report.Normalized()
    requires ProjectHealthReport(sha, report, sequence, recordedAt, kind, missed).Some?
    requires var last := OperateAll(CanonicalHash(sha), operations).db.checkpoint.last;
             last.Some? ==> last.value.sequence < sequence
    ensures var db := OperateAll(CanonicalHash(sha), operations).db;
            var p := ProjectHealthReport(sha, report, sequence, recordedAt, kind, missed).value;
            var result := Ingest(CanonicalHash(sha), db, p).result;
            || (result.Accepted? && result.outcome != Replayed)
            || result == Rejected(Rejection(GenerationExhausted, false))
  {
    hide OperateAll, ProjectHealthReport, ValidProjection, DisabledButHealthy, Ingest;
    ProjectedIsValid(sha, report, sequence, recordedAt, kind, missed);
    OperationsKeepSound(CanonicalHash(sha), operations);
    var db := OperateAll(CanonicalHash(sha), operations).db;
    IngestionKeepsTrust(CanonicalHash(sha), db, ProjectHealthReport(sha, report, sequence, recordedAt, kind, missed).value);
  }

  /** A healthy component with one reason. */
  function HealthyWith(component: ComponentName, code: string): ComponentProjection {
    ComponentProjection(component, Healthy, [Reason(component, code)], 0, 0, None)
  }

  lemma HealthyWithIsValid(component: ComponentName, code: string)
    requires IsCode(component, code)
    ensures HealthyWith(component, code).Valid()
    ensures HealthyWith(component, code).component == component && HealthyWith(component, code).status == Healthy
  {
    hide IsCode;
  }

  lemma AllHealthy(components: seq<ComponentProjection>)
    requires forall i :: 0 <= i < |components| ==> components[i].status == Healthy
    ensures WorstStatus(components) == Healthy
  {
  }

  lemma Contradiction(sha: string -> Digest) returns (p: HealthProjection)
    requires DigestsAreFull(sha)
    ensures ValidProjection(CanonicalHash(sha), p)
    ensures |p.components| > 0 && p.components[0] == HealthyWith(Wled, "disabled")
  {
    hide Encode, WorstStatus, HealthyWith, ComponentProjection.Valid, IsCode;
    DisabledIsCode();
    CommonCodes(HyperHdr);
    CommonCodes(Capture);
    CommonCodes(RaspberryPi);
    HealthyWithIsValid(Wled, "disabled");
    HealthyWithIsValid(HyperHdr, "healthy");
    HealthyWithIsValid(Capture, "healthy");
    HealthyWithIsValid(RaspberryPi, "healthy");
    var components := [
      HealthyWith(Wled, "disabled"), HealthyWith(HyperHdr, "healthy"), HealthyWith(Capture, "healthy"),
      HealthyWith(RaspberryPi, "healthy")];
    AllHealthy(components);
    var draft := HealthProjection(1, 1, 0, 0, Healthy, 0, StartupGap, 0, components, NO_DIGEST);
    p := draft.(digest := sha(CanonicalText(draft)));
    assert CanonicalText(p) == CanonicalText(draft);
  }

  /**
   * A projection that was not made from a normalized report can cost trust, even as the very first
   * one: this one claims that WLED is switched off on purpose and healthy.
   */
  lemma ContradictionCostsTrust(sha: string -> Digest) returns (p: HealthProjection)
    requires DigestsAreFull(sha)
    ensures ValidProjection(CanonicalHash(sha), p)
    ensures |p.components| > 0 && p.components[0] == HealthyWith(Wled, "disabled")
    ensures Ingest(CanonicalHash(sha), EMPTY_DB, p) == Ingested(EMPTY_DB, Rejected(MALFORMED))
  {
    hide Ingest, CanonicalText, Sound, ValidProjection, CanonicalHash;
    p := Contradiction(sha);
    assert p.components[0].IntentionallyDisabled();
    EmptyIsSound(CanonicalHash(sha));
    IngestionKeepsTrust(CanonicalHash(sha), EMPTY_DB, p);
  }
}
