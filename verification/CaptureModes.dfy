/** What a V4L2 driver answers to mode queries, and what the answers mean (hardware/capture_modes_probe.py). */
module CaptureModes {
  import opened Wrappers

  /** The two kinds of capture queue. */
  datatype Queue = SinglePlanar | MultiPlanar

  /** `Ended` is EINVAL, the regular end of a list; `Broken` any other operating-system error. */
  datatype Answer<T> = Answered(raw: T) | Ended | Broken

  datatype RawFormat = RawFormat(
    index: nat, queue: Option<Queue>, flags: nat, description: seq<Byte>, pixel: nat, reservedClear: bool)

  datatype RawSize = RawSize(
    index: nat, pixel: nat, kind: nat, a: nat, b: nat, c: nat, d: nat, e: nat, f: nat, reservedClear: bool)

  datatype RawInterval = RawInterval(
    index: nat, pixel: nat, width: nat, height: nat,
    kind: nat, a: nat, b: nat, c: nat, d: nat, e: nat, f: nat, reservedClear: bool)

  /** A driver answers the same question in the same way; apart from that it may answer anything. */
  datatype Driver = Driver(
    format: (Queue, nat) -> Answer<RawFormat>,
    size: (nat, nat) -> Answer<RawSize>,
    interval: (nat, nat, nat, nat) -> Answer<RawInterval>)

  // ---------- Formats ----------

  const FOURCC_BE: nat := 0x8000_0000

  datatype FormatInfo = FormatInfo(
    queue: Queue, pixel: nat, fourcc: seq<Byte>, bigEndian: bool, description: Option<seq<Byte>>, compressed: bool, emulated: bool)

  function IndexOfNul(bytes: seq<Byte>): (at: Option<nat>)
    ensures at.Some? ==> at.value < |bytes| && bytes[at.value] == 0
  {
    if bytes == [] then None
    else if bytes[0] == 0 then Some(0)
    else
      match IndexOfNul(bytes[1..])
      case None => None
      case Some(at) => Some(at + 1)
  }

  predicate IsPrintable(b: Byte) {
    32 <= b < 127
  }

  /** `Some(None)` is an empty description, `None` an invalid one. */
  function ParseDescription(bytes: seq<Byte>): Option<Option<seq<Byte>>> {
    match IndexOfNul(bytes)
    case None => None
    case Some(0) => Some(None)
    case Some(at) => if forall i :: 0 <= i < at ==> IsPrintable(bytes[i]) then Some(Some(bytes[..at])) else None
  }

  function ParseFourcc(pixel: nat): Option<seq<Byte>> {
    var p := pixel % FOURCC_BE;
    var raw := [p % 0x100, p / 0x100 % 0x100, p / 0x1_0000 % 0x100, p / 0x100_0000 % 0x100];
    if forall i :: 0 <= i < 4 ==> IsPrintable(raw[i]) then Some(raw) else None
  }

  function ParseFormat(raw: RawFormat, queue: Queue, index: nat): (info: Option<FormatInfo>)
    ensures info.Some? ==> info.value.pixel == raw.pixel
  {
    var description, fourcc := ParseDescription(raw.description), ParseFourcc(raw.pixel);
    if raw.index != index || raw.queue != Some(queue) || !raw.reservedClear || description.None? || fourcc.None? then None
    else Some(FormatInfo(
      queue, raw.pixel, fourcc.value, raw.pixel / FOURCC_BE % 2 == 1, description.value,
      raw.flags % 2 == 1, raw.flags / 2 % 2 == 1))
  }

  /**
   * The character code spells the pixel format from its lowest byte up, the top bit is the byte order, the two
   * lowest flags are compression and emulation, and the description is what comes before the first zero.
   */
  lemma FormatMeans(raw: RawFormat, queue: Queue, index: nat)
    requires ParseFormat(raw, queue, index).Some? && raw.pixel < 0x1_0000_0000
    ensures var info := ParseFormat(raw, queue, index).value;
            && |info.fourcc| == 4 && info.queue == queue
            && raw.pixel == info.fourcc[0] as int + 0x100 * info.fourcc[1] as int + 0x1_0000 * info.fourcc[2] as int
                 + 0x100_0000 * info.fourcc[3] as int + (if info.bigEndian then 0x8000_0000 else 0)
            && raw.flags % 4 == (if info.compressed then 1 else 0) + (if info.emulated then 2 else 0)
            && (if info.description.None? then raw.description[0] == 0
                else info.description.value + [0] <= raw.description && 0 !in info.description.value && info.description.value != [])
  {
    hide ParseFourcc, ParseDescription, IsPrintable;
    FourccMeans(raw.pixel);
    DescriptionMeans(raw.description);
    assert raw.flags % 4 == raw.flags % 2 + 2 * (raw.flags / 2 % 2);
    assert raw.pixel == raw.pixel % FOURCC_BE + FOURCC_BE * (raw.pixel / FOURCC_BE);
  }

  lemma DescriptionMeans(bytes: seq<Byte>)
    requires ParseDescription(bytes).Some?
    ensures match ParseDescription(bytes).value
            case None => bytes != [] && bytes[0] == 0
            case Some(text) => text + [0] <= bytes && 0 !in text && text != []
  {
    hide IsPrintable, IndexOfNul;
    FirstNul(bytes);
    var at := IndexOfNul(bytes).value;
    if at > 0 {
      assert bytes[..at] + [0] == bytes[..at + 1];
    }
  }

  lemma FourccMeans(pixel: nat)
    requires ParseFourcc(pixel).Some?
    ensures var code := ParseFourcc(pixel).value;
            && |code| == 4
            && pixel % 0x8000_0000 ==
                 code[0] as int + 0x100 * code[1] as int + 0x1_0000 * code[2] as int + 0x100_0000 * code[3] as int
  {
    hide IsPrintable;
    var p := pixel % FOURCC_BE;
    assert p / 0x1_0000 == p / 0x100 / 0x100 && p / 0x100_0000 == p / 0x100 / 0x100 / 0x100;
  }

  lemma {:induction false} FirstNul(bytes: seq<Byte>)
    ensures IndexOfNul(bytes).Some? ==> 0 !in bytes[..IndexOfNul(bytes).value]
  {
    if bytes != [] && bytes[0] != 0 {
      FirstNul(bytes[1..]);
      if IndexOfNul(bytes).Some? {
        assert bytes[..IndexOfNul(bytes).value] == [bytes[0]] + bytes[1..][..IndexOfNul(bytes).value - 1];
      }
    }
  }

  /** The entry of the driver's own list of formats at this index, if it is valid. */
  function FormatAt(d: Driver, queue: Queue, index: nat): Option<FormatInfo> {
    match d.format(queue, index)
    case Answered(raw) => ParseFormat(raw, queue, index)
    case _ => None
  }

  // ---------- Sizes ----------

  datatype SizeInfo =
    | DiscreteSize(width: nat, height: nat)
    | SizeRange(minWidth: nat, maxWidth: nat, minHeight: nat, maxHeight: nat, step: Option<(nat, nat)>)

  const DISCRETE: nat := 1
  const CONTINUOUS: nat := 2
  const STEPWISE: nat := 3

  /** A range must be the only entry of its list. */
  function ParseSize(raw: RawSize, pixel: nat, index: nat): Option<SizeInfo> {
    if raw.index != index || raw.pixel != pixel || !raw.reservedClear then None
    else if raw.kind == DISCRETE then
      if raw.a == 0 || raw.b == 0 then None else Some(DiscreteSize(raw.a, raw.b))
    else if index != 0 || (raw.kind != CONTINUOUS && raw.kind != STEPWISE) then None
    else if raw.a == 0 || raw.b == 0 || raw.d == 0 || raw.e == 0 || raw.a > raw.b || raw.d > raw.e then None
    else if raw.kind == STEPWISE && (raw.c == 0 || raw.f == 0) then None
    else Some(SizeRange(raw.a, raw.b, raw.d, raw.e, if raw.kind == STEPWISE then Some((raw.c, raw.f)) else None))
  }

  function SizeAt(d: Driver, pixel: nat, index: nat): Option<SizeInfo> {
    match d.size(pixel, index)
    case Answered(raw) => ParseSize(raw, pixel, index)
    case _ => None
  }

  // ---------- Intervals ----------

  datatype Fraction = Fraction(numerator: nat, denominator: nat)

  datatype IntervalInfo =
    | DiscreteInterval(at: Fraction)
    | IntervalRange(least: Fraction, greatest: Fraction, step: Option<Fraction>)

  function ParseInterval(raw: RawInterval, pixel: nat, width: nat, height: nat, index: nat): Option<IntervalInfo> {
    if raw.index != index || raw.pixel != pixel || raw.width != width || raw.height != height || !raw.reservedClear then None
    else if raw.kind == DISCRETE then
      if raw.a == 0 || raw.b == 0 then None else Some(DiscreteInterval(Fraction(raw.a, raw.b)))
    else if index != 0 || (raw.kind != CONTINUOUS && raw.kind != STEPWISE) then None
    else if raw.a == 0 || raw.b == 0 || raw.c == 0 || raw.d == 0 || raw.a * raw.d > raw.c * raw.b then None
    else if raw.kind == STEPWISE && (raw.e == 0 || raw.f == 0) then None
    else Some(IntervalRange(
      Fraction(raw.a, raw.b), Fraction(raw.c, raw.d), if raw.kind == STEPWISE then Some(Fraction(raw.e, raw.f)) else None))
  }

  function IntervalAt(d: Driver, pixel: nat, width: nat, height: nat, index: nat): Option<IntervalInfo> {
    match d.interval(pixel, width, height, index)
    case Answered(raw) => ParseInterval(raw, pixel, width, height, index)
    case _ => None
  }

  /** Ranges are ordered and have a step exactly if they are stepwise; nothing that is reported is zero. */
  lemma RangesAreOrdered(size: RawSize, interval: RawInterval, width: nat, height: nat, index: nat)
    ensures match ParseSize(size, size.pixel, index)
            case Some(SizeRange(minWidth, maxWidth, minHeight, maxHeight, step)) =>
              && index == 0 && 0 < minWidth <= maxWidth && 0 < minHeight <= maxHeight && (step.Some? <==> size.kind == 3)
            case Some(DiscreteSize(w, h)) => size.kind == 1 && w == size.a > 0 && h == size.b > 0
            case None => true
    ensures match ParseInterval(interval, interval.pixel, width, height, index)
            case Some(IntervalRange(least, greatest, step)) =>
              && index == 0 && (step.Some? <==> interval.kind == 3) && least.denominator > 0 && greatest.denominator > 0
              && least.numerator as real / least.denominator as real <= greatest.numerator as real / greatest.denominator as real
            case Some(DiscreteInterval(at)) => interval.kind == 1 && at == Fraction(interval.a, interval.b) && interval.a * interval.b > 0
            case None => true
  {
    var i := interval;
    if ParseInterval(i, i.pixel, width, height, index).Some? && i.kind != 1 {
      CrossMultiplied(i.a, i.b, i.c, i.d);
    }
  }

  lemma CrossMultiplied(a: nat, b: nat, c: nat, d: nat)
    requires b > 0 && d > 0 && a * d <= c * b
    ensures a as real / b as real <= c as real / d as real
  {
    var x, y := a as real / b as real, c as real / d as real;
    var bd := (b as real) * (d as real);
    assert x * bd == (x * b as real) * d as real == a as real * d as real == (a * d) as real;
    assert y * bd == (y * d as real) * b as real == c as real * b as real == (c * b) as real;
  }

  // ---------- Reports ----------

  datatype ReportedSize = ReportedSize(info: SizeInfo, intervals: seq<IntervalInfo>, enumerated: bool)

  datatype ReportedFormat = ReportedFormat(info: FormatInfo, sizes: seq<ReportedSize>)

  /** The reported intervals are the head of the driver's list. */
  ghost predicate IntervalsFrom(d: Driver, pixel: nat, width: nat, height: nat, reported: seq<IntervalInfo>) {
    forall i :: 0 <= i < |reported| ==> IntervalAt(d, pixel, width, height, i) == Some(reported[i])
  }

  /** The reported intervals are the whole list: it ends regularly after them, or it is a single range. */
  ghost predicate IntervalsWhole(d: Driver, pixel: nat, width: nat, height: nat, reported: seq<IntervalInfo>) {
    && IntervalsFrom(d, pixel, width, height, reported)
    && reported != []
    && if reported[0].IntervalRange? then |reported| == 1
       else d.interval(pixel, width, height, |reported|) == Ended
  }

  ghost predicate SizeFrom(d: Driver, pixel: nat, index: nat, reported: ReportedSize) {
    && SizeAt(d, pixel, index) == Some(reported.info)
    && match reported.info
       case DiscreteSize(width, height) => IntervalsFrom(d, pixel, width, height, reported.intervals)
       case SizeRange(_, _, _, _, _) => reported.intervals == []
  }

  ghost predicate SizesFrom(d: Driver, pixel: nat, reported: seq<ReportedSize>) {
    forall i :: 0 <= i < |reported| ==> SizeFrom(d, pixel, i, reported[i])
  }

  /** Discrete sizes only, each with all its intervals, and the list ends regularly after them. */
  ghost predicate SizesWhole(d: Driver, pixel: nat, reported: seq<ReportedSize>) {
    && SizesFrom(d, pixel, reported)
    && reported != []
    && (forall i :: 0 <= i < |reported| ==>
          && reported[i].info.DiscreteSize? && reported[i].enumerated
          && IntervalsWhole(d, pixel, reported[i].info.width, reported[i].info.height, reported[i].intervals))
    && d.size(pixel, |reported|) == Ended
  }

  lemma OneMoreSize(d: Driver, pixel: nat, reported: seq<ReportedSize>, next: ReportedSize)
    requires SizesFrom(d, pixel, reported) && SizeFrom(d, pixel, |reported|, next)
    ensures SizesFrom(d, pixel, reported + [next])
    ensures SizeRecords(reported + [next]) == SizeRecords(reported) + 1 + |next.intervals|
    ensures SizeCalls(reported + [next]) == SizeCalls(reported) + 1 + IntervalCalls(next.intervals)
  {
    hide SizeFrom;
    var all := reported + [next];
    assert all[..|reported|] == reported;
    forall i | 0 <= i < |all|
      ensures SizeFrom(d, pixel, i, all[i])
    {
      assert if i < |reported| then all[i] == reported[i] else all[i] == next;
    }
  }

  ghost predicate FormatFrom(d: Driver, queue: Queue, index: nat, reported: ReportedFormat) {
    && FormatAt(d, queue, index) == Some(reported.info)
    && SizesFrom(d, reported.info.pixel, reported.sizes)
  }

  ghost predicate FormatsFrom(d: Driver, queue: Queue, reported: seq<ReportedFormat>) {
    forall i :: 0 <= i < |reported| ==> FormatFrom(d, queue, i, reported[i])
  }

  ghost predicate FormatsWhole(d: Driver, queue: Queue, reported: seq<ReportedFormat>) {
    && FormatsFrom(d, queue, reported)
    && (forall i :: 0 <= i < |reported| ==> SizesWhole(d, reported[i].info.pixel, reported[i].sizes))
    && d.format(queue, |reported|) == Ended
  }

  /** How many records a report is made of. */
  function SizeRecords(sizes: seq<ReportedSize>): nat {
    if sizes == [] then 0
    else SizeRecords(sizes[..|sizes| - 1]) + 1 + |sizes[|sizes| - 1].intervals|
  }

  function FormatRecords(formats: seq<ReportedFormat>): nat {
    if formats == [] then 0
    else FormatRecords(formats[..|formats| - 1]) + 1 + SizeRecords(formats[|formats| - 1].sizes)
  }

  lemma OneMoreFormat(d: Driver, queue: Queue, reported: seq<ReportedFormat>, next: ReportedFormat)
    requires FormatsFrom(d, queue, reported) && FormatFrom(d, queue, |reported|, next)
    ensures FormatsFrom(d, queue, reported + [next])
    ensures FormatRecords(reported + [next]) == FormatRecords(reported) + 1 + SizeRecords(next.sizes)
    ensures FormatCalls(reported + [next]) == FormatCalls(reported) + 1 + SizeCalls(next.sizes) + 1
  {
    hide FormatFrom;
    assert (reported + [next])[..|reported|] == reported;
  }

  lemma {:induction false} RecordsOfSum(a: seq<ReportedFormat>, b: seq<ReportedFormat>)
    ensures FormatRecords(a + b) == FormatRecords(a) + FormatRecords(b)
  {
    if b == [] {
      assert a + b == a;
    } else {
      var n := |b| - 1;
      RecordsOfSum(a, b[..n]);
      assert (a + b)[..|a| + n] == a + b[..n];
    }
  }

  // ---------- What it takes to report everything ----------

  /** How many questions a complete list of intervals takes; a range ends its list, any other list has to end itself. */
  function IntervalCalls(intervals: seq<IntervalInfo>): nat {
    |intervals| + if intervals != [] && intervals[0].IntervalRange? then 0 else 1
  }

  /** How many questions these sizes take, without the one that finds the end of the list. */
  function SizeCalls(sizes: seq<ReportedSize>): nat {
    if sizes == [] then 0
    else SizeCalls(sizes[..|sizes| - 1]) + 1 + IntervalCalls(sizes[|sizes| - 1].intervals)
  }

  function FormatCalls(formats: seq<ReportedFormat>): nat {
    if formats == [] then 0
    else FormatCalls(formats[..|formats| - 1]) + 1 + SizeCalls(formats[|formats| - 1].sizes) + 1
  }

  /** A whole list that is short enough to be asked for to its end. */
  ghost predicate IntervalsFit(d: Driver, pixel: nat, width: nat, height: nat, whole: seq<IntervalInfo>) {
    IntervalsWhole(d, pixel, width, height, whole) && |whole| <= 63
  }

  ghost predicate SizesFit(d: Driver, pixel: nat, whole: seq<ReportedSize>) {
    && SizesWhole(d, pixel, whole) && |whole| <= 63
    && forall i :: 0 <= i < |whole| ==> |whole[i].intervals| <= 63
  }

  ghost predicate FormatsFit(d: Driver, queue: Queue, whole: seq<ReportedFormat>) {
    && FormatsWhole(d, queue, whole) && |whole| <= 31
    && forall i :: 0 <= i < |whole| ==> SizesFit(d, whole[i].info.pixel, whole[i].sizes)
  }

  lemma {:induction false} SizePrefix(sizes: seq<ReportedSize>, n: nat)
    requires n <= |sizes|
    ensures SizeCalls(sizes[..n]) <= SizeCalls(sizes) && SizeRecords(sizes[..n]) <= SizeRecords(sizes)
    decreases |sizes|
  {
    if n < |sizes| {
      SizePrefix(sizes[..|sizes| - 1], n);
      assert sizes[..|sizes| - 1][..n] == sizes[..n];
    } else {
      assert sizes[..n] == sizes;
    }
  }

  lemma {:induction false} FormatPrefix(formats: seq<ReportedFormat>, n: nat)
    requires n <= |formats|
    ensures FormatCalls(formats[..n]) <= FormatCalls(formats) && FormatRecords(formats[..n]) <= FormatRecords(formats)
    decreases |formats|
  {
    if n < |formats| {
      FormatPrefix(formats[..|formats| - 1], n);
      assert formats[..|formats| - 1][..n] == formats[..n];
    } else {
      assert formats[..n] == formats;
    }
  }

  /** The next size of a list that can be reported to its end takes no more than what the whole list takes. */
  lemma NextSize(whole: seq<ReportedSize>, n: nat)
    requires n < |whole|
    ensures whole[..n + 1] == whole[..n] + [whole[n]]
    ensures SizeCalls(whole[..n]) + 1 + IntervalCalls(whole[n].intervals) == SizeCalls(whole[..n + 1]) <= SizeCalls(whole)
    ensures SizeRecords(whole[..n]) + 1 + |whole[n].intervals| == SizeRecords(whole[..n + 1]) <= SizeRecords(whole)
  {
    hide IntervalCalls;
    SizePrefix(whole, n + 1);
    assert whole[..n + 1][..n] == whole[..n];
  }

  lemma FormatStep(formats: seq<ReportedFormat>)
    requires formats != []
    ensures var n := |formats| - 1;
            && FormatCalls(formats) == FormatCalls(formats[..n]) + 1 + SizeCalls(formats[n].sizes) + 1
            && FormatRecords(formats) == FormatRecords(formats[..n]) + 1 + SizeRecords(formats[n].sizes)
  {
    hide SizeCalls, SizeRecords;
  }

  lemma NextFormat(whole: seq<ReportedFormat>, n: nat)
    requires n < |whole|
    ensures whole[..n + 1] == whole[..n] + [whole[n]]
    ensures FormatCalls(whole[..n]) + 1 + SizeCalls(whole[n].sizes) + 1 == FormatCalls(whole[..n + 1]) <= FormatCalls(whole)
    ensures FormatRecords(whole[..n]) + 1 + SizeRecords(whole[n].sizes) == FormatRecords(whole[..n + 1]) <= FormatRecords(whole)
  {
    hide SizeCalls, SizeRecords, FormatCalls, FormatRecords;
    FormatPrefix(whole, n + 1);
    FormatStep(whole[..n + 1]);
    assert whole[..n + 1][..n] == whole[..n];
  }

  // ---------- What ends a report ----------

  /**
   * The list of intervals goes on until it has 64 entries, the questions or records are spent, or the driver
   * has no further valid entry; a list that was asked for to its end is marked so.
   */
  ghost predicate IntervalsEnd(
    d: Driver, pixel: nat, width: nat, height: nat, reported: seq<IntervalInfo>, done: bool, spent: bool)
  {
    spent || |reported| == 64
    || (if IntervalsWhole(d, pixel, width, height, reported) then done else IntervalAt(d, pixel, width, height, |reported|).None?)
  }

  ghost predicate SizeEnds(d: Driver, pixel: nat, reported: ReportedSize, spent: bool) {
    match reported.info
    case DiscreteSize(width, height) => IntervalsEnd(d, pixel, width, height, reported.intervals, reported.enumerated, spent)
    case SizeRange(_, _, _, _, _) => true
  }

  ghost predicate SizesEnd(d: Driver, pixel: nat, reported: seq<ReportedSize>, spent: bool) {
    && (spent || |reported| == 64 || (reported != [] && reported[0].info.SizeRange?) || SizeAt(d, pixel, |reported|).None?)
    && forall i :: 0 <= i < |reported| ==> SizeEnds(d, pixel, reported[i], spent)
  }

  /** The list has an invalid or failing entry among its first 32. */
  ghost predicate FormatsBreak(d: Driver, queue: Queue) {
    exists n :: 0 <= n < 32 && FormatAt(d, queue, n).None? && d.format(queue, n) != Ended
  }

  /** A list with an invalid or failing entry is not reported; any other goes on as far as it can. */
  ghost predicate FormatsEnd(d: Driver, queue: Queue, reported: seq<ReportedFormat>, spent: bool) {
    || (reported == [] && FormatsBreak(d, queue))
    || (&& (spent || |reported| == 32 || d.format(queue, |reported|) == Ended)
        && forall i :: 0 <= i < |reported| ==> SizesEnd(d, reported[i].info.pixel, reported[i].sizes, spent))
  }

  // ---------- A complete report is determined by the driver ----------

  lemma WholeIntervalsAgree(d: Driver, pixel: nat, width: nat, height: nat, a: seq<IntervalInfo>, b: seq<IntervalInfo>)
    requires IntervalsWhole(d, pixel, width, height, a) && IntervalsWhole(d, pixel, width, height, b)
    requires |a| <= |b|
    ensures a == b
  {
    assert forall i :: 0 <= i < |a| ==> IntervalAt(d, pixel, width, height, i) == Some(a[i]) == Some(b[i]);
    if !a[0].IntervalRange? {
      assert IntervalAt(d, pixel, width, height, |a|).None?;
    }
  }

  lemma WholeSizesAgree(d: Driver, pixel: nat, a: seq<ReportedSize>, b: seq<ReportedSize>)
    requires SizesWhole(d, pixel, a) && SizesWhole(d, pixel, b) && |a| <= |b|
    ensures a == b
  {
    assert |a| < |b| ==> SizeFrom(d, pixel, |a|, b[|a|]);
    forall i | 0 <= i < |a|
      ensures a[i] == b[i]
    {
      assert SizeFrom(d, pixel, i, a[i]) && SizeFrom(d, pixel, i, b[i]);
      var width, height := a[i].info.width, a[i].info.height;
      if |a[i].intervals| <= |b[i].intervals| {
        WholeIntervalsAgree(d, pixel, width, height, a[i].intervals, b[i].intervals);
      } else {
        WholeIntervalsAgree(d, pixel, width, height, b[i].intervals, a[i].intervals);
      }
    }
  }

  /** Two complete reports on one queue are the same, so there is only one thing to report. */
  lemma WholeFormatsAgree(d: Driver, queue: Queue, a: seq<ReportedFormat>, b: seq<ReportedFormat>)
    requires FormatsWhole(d, queue, a) && FormatsWhole(d, queue, b) && |a| <= |b|
    ensures a == b
  {
    assert |a| < |b| ==> FormatFrom(d, queue, |a|, b[|a|]);
    forall i | 0 <= i < |a|
      ensures a[i] == b[i]
    {
      assert FormatFrom(d, queue, i, a[i]) && FormatFrom(d, queue, i, b[i]);
      if |a[i].sizes| <= |b[i].sizes| {
        WholeSizesAgree(d, a[i].info.pixel, a[i].sizes, b[i].sizes);
      } else {
        WholeSizesAgree(d, a[i].info.pixel, b[i].sizes, a[i].sizes);
      }
    }
  }
}
