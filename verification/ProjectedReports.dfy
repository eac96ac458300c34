/** Which health reports can be projected, and that the projection has the same components. */
module ProjectedReports {
  import opened Wrappers
  import opened HealthModels
  import opened Projection
  import opened Reports

  /** Four components with different names, in any order. */
  predicate FourDifferent(components: seq<ComponentProjection>) {
    && |components| == 4
    && forall i, j :: 0 <= i < j < |components| ==> components[i].component != components[j].component
  }

  predicate IsWorst(overall: Status, components: seq<ComponentProjection>) {
    && (exists i :: 0 <= i < |components| && components[i].status == overall)
    && forall i :: 0 <= i < |components| ==> Severity(components[i].status) <= Severity(overall)
  }

  /** The report and the numbers that go with it are in their ranges. */
  predicate InRange(report: Report, sequence: int, recordedAt: int, missed: int) {
    && 0 <= sequence <= MAX_OBSERVATION_SEQUENCE && IsTimestamp(report.observedAt) && IsTimestamp(recordedAt)
    && 0 <= report.uptime <= MAX_SERVICE_UPTIME_MS && IsCounter(missed)
  }

  function Count(components: seq<ComponentProjection>, name: ComponentName): nat {
    |Named(components, name)|
  }

  /** Every component has one of the four names. */
  lemma {:induction false} CountsAddUp(components: seq<ComponentProjection>)
    ensures Count(components, Wled) + Count(components, HyperHdr) + Count(components, Capture) + Count(components, RaspberryPi)
         == |components|
  {
    if components != [] {
      CountsAddUp(components[1..]);
    }
  }

  lemma {:induction false} NamedOnce(components: seq<ComponentProjection>, name: ComponentName)
    ensures (forall i, j :: 0 <= i < j < |components| ==> components[i].component != components[j].component) ==>
              |Named(components, name)| <= 1
    ensures forall i, j :: 0 <= i < j < |components| && components[i].component == name && components[j].component == name ==>
              |Named(components, name)| >= 2
    ensures forall i :: 0 <= i < |components| && components[i].component == name ==> |Named(components, name)| >= 1
  {
    if components != [] {
      var rest := components[1..];
      assert forall i :: 0 < i < |components| ==> components[i] == rest[i - 1];
      NamedOnce(rest, name);
      if Named(rest, name) != [] {
        assert Named(rest, name)[0] in rest;
      }
    }
  }

  /** With four components, each name occurs once exactly if no name occurs twice. */
  lemma EachOnce(components: seq<ComponentProjection>)
    requires |components| == 4
    ensures FourDifferent(components) <==> forall name :: Count(components, name) == 1
  {
    CountsAddUp(components);
    forall name
      ensures FourDifferent(components) ==> Count(components, name) <= 1
      ensures forall i, j :: 0 <= i < j < |components| && components[i].component == name && components[j].component == name ==>
                Count(components, name) >= 2
    {
      NamedOnce(components, name);
    }
    hide Count;
    if FourDifferent(components) {
      assert Count(components, Wled) <= 1 && Count(components, HyperHdr) <= 1 && Count(components, Capture) <= 1
          && Count(components, RaspberryPi) <= 1;
    }
  }

  /** Each component is found again under its name. */
  lemma OrderedExactly(components: seq<ComponentProjection>)
    ensures Ordered(components).Some? <==> FourDifferent(components)
    ensures Ordered(components).Some? ==> forall c :: c in components <==> c in Ordered(components).value
  {
    if |components| == 4 {
      EachOnce(components);
      FourNames(components);
      hide Named, FourDifferent, Count;
      if Ordered(components).Some? {
        AllOrdered(components);
      }
    }
  }

  lemma FourNames(components: seq<ComponentProjection>)
    ensures (forall name :: Count(components, name) == 1) <==>
              && |Named(components, Wled)| == 1 && |Named(components, HyperHdr)| == 1
              && |Named(components, Capture)| == 1 && |Named(components, RaspberryPi)| == 1
  {
    hide Named;
    if |Named(components, Wled)| == 1 && |Named(components, HyperHdr)| == 1
       && |Named(components, Capture)| == 1 && |Named(components, RaspberryPi)| == 1 {
      forall name
        ensures Count(components, name) == 1
      {
        assert name == Wled || name == HyperHdr || name == Capture || name == RaspberryPi;
      }
    } else {
      assert Count(components, Wled) != 1 || Count(components, HyperHdr) != 1 || Count(components, Capture) != 1
          || Count(components, RaspberryPi) != 1;
    }
  }

  lemma AllOrdered(components: seq<ComponentProjection>)
    requires Ordered(components).Some?
    ensures forall c :: c in components <==> c in Ordered(components).value
  {
    forall c | c in components
      ensures c in Ordered(components).value
    {
      NamedHas(components, c);
      hide Named;
      var ordered := Ordered(components).value;
      assert c in Named(components, c.component);
      match c.component {
        case Wled => assert ordered[0] == c;
        case HyperHdr => assert ordered[1] == c;
        case Capture => assert ordered[2] == c;
        case RaspberryPi => assert ordered[3] == c;
      }
    }
  }

  lemma {:induction false} NamedHas(components: seq<ComponentProjection>, c: ComponentProjection)
    requires c in components
    ensures c in Named(components, c.component)
  {
    if components[0] != c {
      NamedHas(components[1..], c);
    }
  }

  /** The worst status is the only one that is attained and not exceeded. */
  lemma WorstIsUnique(components: seq<ComponentProjection>, overall: Status)
    requires components != []
    ensures overall == WorstStatus(components) <==> IsWorst(overall, components)
  {
    hide WorstStatus;
  }

  lemma SameComponentsSameWorst(overall: Status, a: seq<ComponentProjection>, b: seq<ComponentProjection>)
    requires forall c :: c in a <==> c in b
    ensures IsWorst(overall, a) <==> IsWorst(overall, b)
  {
    assert forall i :: 0 <= i < |a| ==> a[i] in b;
    assert forall i :: 0 <= i < |b| ==> b[i] in a;
  }

  /**
   * A report is projected exactly if it has four valid components with different names, its overall status is
   * their worst, and all numbers are in range; the projection has the same components.
   */
  lemma ReportIsProjected(sha: string -> Digest, report: Report, sequence: int, recordedAt: int, kind: SampleKind, missed: int)
    ensures var p := ProjectHealthReport(sha, report, sequence, recordedAt, kind, missed);
            && (p.Some? <==>
                  && FourDifferent(report.components) && (forall c :: c in report.components ==> c.Valid())
                  && IsWorst(report.overall, report.components) && InRange(report, sequence, recordedAt, missed))
            && (p.Some? ==> forall c :: c in p.value.components <==> c in report.components)
  {
    OrderedExactly(report.components);
    if Ordered(report.components).Some? {
      var components := Ordered(report.components).value;
      WorstIsUnique(components, report.overall);
      SameComponentsSameWorst(report.overall, components, report.components);
      DraftFits(report, sequence, recordedAt, kind, missed, components);
      hide WorstStatus, Ordered, IsWorst, FourDifferent, CanonicalText, ComponentProjection.Valid, WellFormed, InRange;
    }
  }

  lemma DraftFits(
    report: Report, sequence: int, recordedAt: int, kind: SampleKind, missed: int, components: seq<ComponentProjection>)
    requires |components| == 4 && forall i :: 0 <= i < 4 ==> components[i].component == ComponentAt(i)
    ensures WellFormed(HealthProjection(
              1, sequence, report.observedAt, recordedAt, report.overall, report.uptime, kind, missed, components, NO_DIGEST)) <==>
              && (forall c :: c in components ==> c.Valid()) && report.overall == WorstStatus(components)
              && InRange(report, sequence, recordedAt, missed)
  {
    hide WorstStatus, ComponentProjection.Valid;
    assert forall i :: 0 <= i < 4 ==> components[i] in components;
  }
}
