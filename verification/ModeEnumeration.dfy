/**
 * The bounded enumeration of capture modes: three nested loops that share one budget of ioctls,
 * one budget of records and one list of gaps (hardware/capture_modes_probe.py).
 */
module ModeEnumeration {
  import opened Wrappers
  import opened CaptureModes

  const MAX_FORMATS: nat := 32
  const MAX_SIZES: nat := 64
  const MAX_INTERVALS: nat := 64
  const MAX_IOCTLS: nat := 2048
  const MAX_RECORDS: nat := 512

  datatype Gap =
    | LimitReached
    | InvalidFormat
    | FormatsFailed
    | SizesUnavailable
    | SizesFailed
    | InvalidSize
    | RangeNotQueried
    | IntervalsUnavailable
    | IntervalsFailed
    | InvalidInterval

  class Enumeration {
    const driver: Driver
    var budget: nat
    var records: nat
    var gaps: seq<Gap>

    /** The capability query has been issued already. */
    constructor (driver: Driver)
      ensures this.driver == driver && budget == 1 && records == 0 && gaps == []
    {
      this.driver, budget, records, gaps := driver, 1, 0, [];
    }

    ghost predicate Valid()
      reads this
    {
      budget <= MAX_IOCTLS && records <= MAX_RECORDS
    }

    method AddGap(gap: Gap)
      modifies this`gaps
      ensures gaps == if gap in old(gaps) then old(gaps) else old(gaps) + [gap]
      ensures gaps != [] && old(gaps) <= gaps
    {
      if gap !in gaps {
        gaps := gaps + [gap];
      }
    }

    /** Whether another ioctl may be issued; it is counted then. */
    method MayCall() returns (ok: bool)
      requires Valid()
      modifies this`budget
      ensures Valid()
      ensures ok <==> old(budget) < 2048
      ensures (old(Spent()) ==> Spent()) && (ok || Spent())
      ensures budget == if ok then old(budget) + 1 else old(budget)
    {
      ok := budget < MAX_IOCTLS;
      if ok {
        budget := budget + 1;
      }
    }

    /** Reserves a record; without one left that is a gap. */
    method MayRecord() returns (ok: bool)
      requires Valid()
      modifies this`records, this`gaps
      ensures Valid()
      ensures ok <==> old(records) < 512
      ensures (old(Spent()) ==> Spent()) && (ok || Spent())
      ensures records == if ok then old(records) + 1 else old(records)
      ensures old(gaps) <= gaps
      ensures if ok then gaps == old(gaps) else gaps != [] && records == 512
    {
      ok := records < MAX_RECORDS;
      if ok {
        records := records + 1;
      } else {
        AddGap(LimitReached);
      }
    }

    /** No question may be put any more, or no record taken. */
    ghost predicate Spent()
      reads this`budget, this`records
    {
      budget == 2048 || records == 512
    }

    /**
     * The intervals of one size.  A whole list that fits the limits is reported whole; `whole` may be any such list.
     */
    method Intervals(pixel: nat, width: nat, height: nat, ghost whole: seq<IntervalInfo>) returns (out: seq<IntervalInfo>, done: bool)
      requires Valid()
      modifies this
      ensures old(Spent()) ==> Spent()
      ensures Valid() && old(gaps) <= gaps && old(budget) <= budget
      ensures records == old(records) + |out|
      ensures IntervalsFrom(driver, pixel, width, height, out)
      ensures done ==> IntervalsWhole(driver, pixel, width, height, out)
      ensures IntervalsEnd(driver, pixel, width, height, out, done, Spent())
      ensures gaps == [] ==> done && |out| <= 63 && budget == old(budget) + IntervalCalls(out)
      ensures IntervalsFit(driver, pixel, width, height, whole)
              && old(budget) + IntervalCalls(whole) <= 2048 && old(records) + |whole| <= 512 ==>
                out == whole && done && gaps == old(gaps) && budget == old(budget) + IntervalCalls(whole)
    {
      hide ParseInterval, IntervalsFrom, IntervalsFit, IntervalsWhole, IntervalsEnd, IntervalCalls;
      FitIsShort(driver, pixel, width, height, whole);
      ghost var fits := IntervalsFit(driver, pixel, width, height, whole)
        && budget + IntervalCalls(whole) <= 2048 && records + |whole| <= 512;
      out := [];
      for index := 0 to MAX_INTERVALS
        invariant Valid() && old(gaps) <= gaps && budget == old(budget) + index
        invariant |out| == index && records == old(records) + |out|
        invariant IntervalsFrom(driver, pixel, width, height, out)
        invariant forall i :: 0 <= i < |out| ==> out[i].DiscreteInterval?
        invariant fits ==> index <= |whole| && out == whole[..index] && gaps == old(gaps)
      {
        if fits {
          NextInterval(driver, pixel, width, height, whole, index);
        }
        var may := MayCall();
        if !may {
          AddGap(LimitReached);
          EndsByLimit(driver, pixel, width, height, out, false, Spent());
          return out, false;
        }
        var answer := driver.interval(pixel, width, height, index);
        ListEnds(driver, pixel, width, height, out, Spent());
        if answer == Ended {
          if out == [] {
            AddGap(IntervalsUnavailable);
          }
          return out, out != [];
        }
        if answer == Broken {
          AddGap(IntervalsFailed);
          return out, false;
        }
        var info := ParseInterval(answer.raw, pixel, width, height, index);
        if info.None? {
          AddGap(InvalidInterval);
          return out, false;
        }
        var recorded := MayRecord();
        if !recorded {
          EndsByLimit(driver, pixel, width, height, out, false, Spent());
          return out, false;
        }
        OneMoreInterval(driver, pixel, width, height, out, info.value);
        out := out + [info.value];
        if info.value.IntervalRange? {
          RangeIsAll(driver, pixel, width, height, out, Spent());
          return out, true;
        }
      }
      AddGap(LimitReached);
      EndsByLimit(driver, pixel, width, height, out, false, Spent());
      return out, false;
    }

    /** A valid size with its intervals; those of a range are not asked for. */
    method SizeEntry(pixel: nat, index: nat, info: SizeInfo, ghost ahead: ReportedSize) returns (reported: ReportedSize)
      requires Valid() && SizeAt(driver, pixel, index) == Some(info)
      modifies this
      ensures old(Spent()) ==> Spent()
      ensures Valid() && old(gaps) <= gaps && old(budget) <= budget
      ensures reported.info == info && records == old(records) + |reported.intervals|
      ensures info.SizeRange? ==> gaps != []
      ensures SizeFrom(driver, pixel, index, reported) && SizeEnds(driver, pixel, reported, Spent())
      ensures gaps == [] ==> SizeFits(driver, pixel, reported) && budget == old(budget) + IntervalCalls(reported.intervals)
      ensures ahead.info == info && SizeFits(driver, pixel, ahead)
              && old(budget) + IntervalCalls(ahead.intervals) <= 2048 && old(records) + |ahead.intervals| <= 512 ==>
                reported == ahead && gaps == old(gaps) && budget == old(budget) + IntervalCalls(ahead.intervals)
    {
      hide IntervalsFrom, IntervalsWhole, IntervalsEnd, IntervalCalls, SizeAt;
      if info.DiscreteSize? {
        var intervals, enumerated := Intervals(pixel, info.width, info.height, ahead.intervals);
        reported := ReportedSize(info, intervals, enumerated);
      } else {
        AddGap(RangeNotQueried);
        reported := ReportedSize(info, [], false);
      }
    }

    method Sizes(pixel: nat, ghost whole: seq<ReportedSize>) returns (out: seq<ReportedSize>)
      requires Valid()
      modifies this
      ensures old(Spent()) ==> Spent()
      ensures Valid() && old(gaps) <= gaps && old(budget) <= budget
      ensures records == old(records) + SizeRecords(out)
      ensures SizesFrom(driver, pixel, out) && SizesEnd(driver, pixel, out, Spent())
      ensures gaps == [] ==> SizesFit(driver, pixel, out) && budget == old(budget) + SizeCalls(out) + 1
      ensures SizesFit(driver, pixel, whole)
              && old(budget) + SizeCalls(whole) + 1 <= 2048 && old(records) + SizeRecords(whole) <= 512 ==>
                out == whole && gaps == old(gaps) && budget == old(budget) + SizeCalls(whole) + 1
    {
      hide IntervalsFrom, IntervalsWhole, IntervalsFit, IntervalsEnd, IntervalCalls, ParseSize, SizesFrom, SizesFit, SizeRecords,
        SizeCalls, SizeFrom, SizeFits, SizeEnds, SizesEnd;
      NoSizes(driver, pixel, whole);
      ghost var fits := SizesFit(driver, pixel, whole)
        && budget + SizeCalls(whole) + 1 <= 2048 && records + SizeRecords(whole) <= 512;
      out := [];
      for index := 0 to MAX_SIZES
        invariant Valid() && old(gaps) <= gaps && old(budget) <= budget && (old(Spent()) ==> Spent())
        invariant |out| == index && records == old(records) + SizeRecords(out)
        invariant SizesFrom(driver, pixel, out)
        invariant forall i :: 0 <= i < |out| ==> out[i].info.DiscreteSize? && SizeEnds(driver, pixel, out[i], Spent())
        invariant gaps == [] ==> budget == old(budget) + SizeCalls(out) && forall i :: 0 <= i < |out| ==> SizeFits(driver, pixel, out[i])
        invariant fits ==> index <= |whole| && out == whole[..index] && gaps == old(gaps) && budget == old(budget) + SizeCalls(out)
      {
        ghost var ahead, spent := NOTHING_AHEAD, Spent();
        if fits {
          NextSizeFits(driver, pixel, whole, index);
          ahead := if index < |whole| then whole[index] else ahead;
        }
        var may := MayCall();
        if !may {
          AddGap(LimitReached);
          SizesStayEnded(driver, pixel, out, spent, Spent());
          SizesEndByLimit(driver, pixel, out, Spent());
          return out;
        }
        var answer := driver.size(pixel, index);
        SizesStayEnded(driver, pixel, out, spent, Spent());
        SizesEndHere(driver, pixel, out, Spent());
        if answer == Ended {
          if out == [] {
            AddGap(SizesUnavailable);
          }
          return out;
        }
        if answer == Broken {
          AddGap(SizesFailed);
          return out;
        }
        var info := ParseSize(answer.raw, pixel, index);
        if info.None? {
          AddGap(InvalidSize);
          return out;
        }
        var recorded := MayRecord();
        SizesStayEnded(driver, pixel, out, spent, Spent());
        if !recorded {
          SizesEndByLimit(driver, pixel, out, Spent());
          return out;
        }
        var reported := SizeEntry(pixel, index, info.value, ahead);
        SizesStayEnded(driver, pixel, out, spent, Spent());
        OneMoreSize(driver, pixel, out, reported);
        out := out + [reported];
        if reported.info.SizeRange? {
          RangeEndsSizes(driver, pixel, out, Spent());
          return out;
        }
      }
      AddGap(LimitReached);
      SizesEndByLimit(driver, pixel, out, Spent());
      return out;
    }

    /** The formats of one queue; an invalid or failing answer discards them. */
    method Formats(queue: Queue, ghost whole: seq<ReportedFormat>) returns (r: Result<seq<ReportedFormat>, Gap>)
      requires Valid()
      modifies this
      ensures old(Spent()) ==> Spent()
      ensures Valid() && old(gaps) <= gaps && old(budget) <= budget && old(records) <= records
      ensures r.Failure? ==> FormatsBreak(driver, queue)
      ensures r.Success? ==>
                && records == old(records) + FormatRecords(r.value)
                && FormatsFrom(driver, queue, r.value) && FormatsEnd(driver, queue, r.value, Spent())
                && (gaps == [] ==> FormatsFit(driver, queue, r.value) && budget == old(budget) + FormatCalls(r.value) + 1)
      ensures FormatsFit(driver, queue, whole)
              && old(budget) + FormatCalls(whole) + 1 <= 2048 && old(records) + FormatRecords(whole) <= 512 ==>
                r == Success(whole) && gaps == old(gaps) && budget == old(budget) + FormatCalls(whole) + 1
    {
      hide SizesFrom, SizesFit, SizesEnd, SizeCalls, SizeRecords, FormatsFrom, FormatsFit, FormatCalls, FormatRecords, FormatsEnd,
        FormatsBreak, FormatFits, FormatEnds, ParseFormat, Spent;
      NoFormat(driver);
      FormatsFitMeans(driver, queue, whole);
      ghost var fits := FormatsFit(driver, queue, whole)
        && budget + FormatCalls(whole) + 1 <= 2048 && records + FormatRecords(whole) <= 512;
      var out: seq<ReportedFormat> := [];
      for index := 0 to MAX_FORMATS
        invariant Valid() && old(gaps) <= gaps && old(budget) <= budget && (old(Spent()) ==> Spent())
        invariant |out| == index && records == old(records) + FormatRecords(out)
        invariant FormatsFrom(driver, queue, out)
        invariant forall i :: 0 <= i < |out| ==> FormatEnds(driver, out[i], Spent())
        invariant gaps == [] ==> budget == old(budget) + FormatCalls(out) && forall i :: 0 <= i < |out| ==> FormatFits(driver, out[i])
        invariant fits ==> index <= |whole| && out == whole[..index] && gaps == old(gaps) && budget == old(budget) + FormatCalls(out)
      {
        ghost var ahead: seq<ReportedSize>, spent := [], Spent();
        if fits {
          NextFormatFits(driver, queue, whole, index);
          ahead := if index < |whole| then whole[index].sizes else [];
        }
        var may := MayCall();
        FormatsStayEnded(driver, out, spent, Spent());
        if !may {
          AddGap(LimitReached);
          FormatsEndHere(driver, queue, out, Spent());
          return Success(out);
        }
        var answer := driver.format(queue, index);
        if answer == Ended {
          FormatsEndHere(driver, queue, out, Spent());
          return Success(out);
        }
        if answer == Broken {
          BreaksHere(driver, queue, index);
          return Failure(FormatsFailed);
        }
        var info := ParseFormat(answer.raw, queue, index);
        if info.None? {
          BreaksHere(driver, queue, index);
          return Failure(InvalidFormat);
        }
        var recorded := MayRecord();
        FormatsStayEnded(driver, out, spent, Spent());
        if !recorded {
          FormatsEndHere(driver, queue, out, Spent());
          return Success(out);
        }
        ghost var sofar := Spent();
        var sizes := Sizes(answer.raw.pixel, ahead);
        FormatsStayEnded(driver, out, sofar, Spent());
        var reported := ReportedFormat(info.value, sizes);
        NewFormat(driver, reported, Spent());
        OneMoreFormat(driver, queue, out, reported);
        out := out + [reported];
      }
      AddGap(LimitReached);
      FormatsEndHere(driver, queue, out, Spent());
      return Success(out);
    }

    /** The formats of all queues in turn; `tables` may be any lists that are whole and fit the limits. */
    method AllFormats(queues: seq<Queue>, ghost tables: seq<seq<ReportedFormat>>)
      returns (formats: seq<ReportedFormat>, ghost parts: seq<seq<ReportedFormat>>)
      requires budget == 1 && records == 0 && gaps == []
      modifies this
      ensures Valid() && FormatRecords(formats) <= records
      ensures |parts| == |queues| && formats == Joined(parts)
      ensures forall q :: 0 <= q < |queues| ==> FormatsFrom(driver, queues[q], parts[q]) && FormatsEnd(driver, queues[q], parts[q], Spent())
      ensures records == FormatRecords(formats) || SomethingBreaks(driver)
      ensures gaps == [] ==> Enumerable(driver, queues, parts)
      ensures Enumerable(driver, queues, tables) ==> parts == tables && gaps == []
    {
      hide FormatsFrom, FormatsFit, FormatsEnd, FormatsBreak, FormatRecords, FormatCalls, Joined, TableCalls, SomethingBreaks;
      NoFormat(driver);
      NoTables();
      formats, parts := [], [];
      for q := 0 to |queues|
        invariant Valid() && FormatRecords(formats) <= records
        invariant records == FormatRecords(formats) || SomethingBreaks(driver)
        invariant |parts| == q && formats == Joined(parts)
        invariant forall p :: 0 <= p < q ==> FormatsFrom(driver, queues[p], parts[p]) && FormatsEnd(driver, queues[p], parts[p], Spent())
        invariant gaps == [] ==>
                    && (forall p :: 0 <= p < q ==> FormatsFit(driver, queues[p], parts[p]))
                    && budget == 1 + TableCalls(parts) && records == FormatRecords(formats)
        invariant Enumerable(driver, queues, tables) ==> parts == tables[..q] && gaps == []
      {
        ghost var ahead: seq<ReportedFormat>, spent := [], Spent();
        if Enumerable(driver, queues, tables) {
          NextTable(tables, q);
          ahead := tables[q];
        }
        var found := Formats(queues[q], ahead);
        var part: seq<ReportedFormat> := [];
        match found {
          case Success(value) => part := value;
          case Failure(gap) => AddGap(gap); BrokenEnds(driver, queues[q], Spent());
        }
        TablesStayEnded(driver, queues, parts, spent, Spent());
        RecordsOfSum(formats, part);
        OneMoreTable(parts, part);
        formats, parts := formats + part, parts + [part];
      }
      assert tables[..|tables|] == tables;
    }
  }

  // ---------- Lists of intervals ----------

  /** The next answer about a list that fits is its next entry, or its end. */
  lemma NextInterval(d: Driver, pixel: nat, width: nat, height: nat, whole: seq<IntervalInfo>, index: nat)
    requires IntervalsFit(d, pixel, width, height, whole) && index <= |whole|
    requires forall i :: 0 <= i < index ==> whole[i].DiscreteInterval?
    ensures whole != [] && index < IntervalCalls(whole)
    ensures index < |whole| ==>
              && IntervalAt(d, pixel, width, height, index) == Some(whole[index])
              && (whole[index].IntervalRange? ==> |whole| == 1 && IntervalCalls(whole) == 1)
    ensures index == |whole| ==> d.interval(pixel, width, height, index) == Ended && IntervalCalls(whole) == index + 1
  {
  }

  lemma FitIsShort(d: Driver, pixel: nat, width: nat, height: nat, whole: seq<IntervalInfo>)
    ensures IntervalsFit(d, pixel, width, height, whole) ==> |whole| < 64
    ensures IntervalsFrom(d, pixel, width, height, [])
  {
  }

  /** The list grows by a valid entry. */
  lemma OneMoreInterval(d: Driver, pixel: nat, width: nat, height: nat, out: seq<IntervalInfo>, next: IntervalInfo)
    requires IntervalsFrom(d, pixel, width, height, out) && IntervalAt(d, pixel, width, height, |out|) == Some(next)
    ensures IntervalsFrom(d, pixel, width, height, out + [next])
  {
  }

  /** A list of discrete intervals ends where the driver ends it, or has no valid entry for it. */
  lemma ListEnds(d: Driver, pixel: nat, width: nat, height: nat, out: seq<IntervalInfo>, spent: bool)
    requires IntervalsFrom(d, pixel, width, height, out) && forall i :: 0 <= i < |out| ==> out[i].DiscreteInterval?
    ensures out != [] && d.interval(pixel, width, height, |out|) == Ended ==>
              && IntervalsWhole(d, pixel, width, height, out) && IntervalsEnd(d, pixel, width, height, out, true, spent)
              && IntervalCalls(out) == |out| + 1
    ensures out == [] || d.interval(pixel, width, height, |out|) != Ended ==>
              IntervalAt(d, pixel, width, height, |out|).None? ==> IntervalsEnd(d, pixel, width, height, out, false, spent)
  {
  }

  lemma RangeIsAll(d: Driver, pixel: nat, width: nat, height: nat, out: seq<IntervalInfo>, spent: bool)
    requires IntervalsFrom(d, pixel, width, height, out) && out != [] && out[|out| - 1].IntervalRange?
    ensures |out| == 1 && IntervalCalls(out) == 1 && IntervalsWhole(d, pixel, width, height, out)
    ensures IntervalsEnd(d, pixel, width, height, out, true, spent)
  {
    assert IntervalAt(d, pixel, width, height, |out| - 1).Some?;
  }

  lemma EndsByLimit(d: Driver, pixel: nat, width: nat, height: nat, out: seq<IntervalInfo>, done: bool, spent: bool)
    requires spent || |out| == 64
    ensures IntervalsEnd(d, pixel, width, height, out, done, spent)
  {
  }

  // ---------- Lists of sizes ----------

  ghost const NOTHING_AHEAD := ReportedSize(DiscreteSize(1, 1), [], false)

  lemma NoSizes(d: Driver, pixel: nat, whole: seq<ReportedSize>)
    ensures SizesFrom(d, pixel, []) && SizeRecords([]) == 0 && SizeCalls([]) == 0
    ensures SizesFit(d, pixel, whole) ==> 0 < |whole| < 64
  {
  }

  /** A discrete size with a whole list of intervals that fits. */
  ghost predicate SizeFits(d: Driver, pixel: nat, size: ReportedSize) {
    && size.info.DiscreteSize? && size.enumerated
    && IntervalsFit(d, pixel, size.info.width, size.info.height, size.intervals)
  }

  /** The next answer about a list that fits is its next entry, or its end, and there are enough questions and records for it. */
  lemma NextSizeFits(d: Driver, pixel: nat, whole: seq<ReportedSize>, index: nat)
    requires SizesFit(d, pixel, whole) && index <= |whole|
    ensures index < |whole| ==>
              && SizeAt(d, pixel, index) == Some(whole[index].info) && SizeFits(d, pixel, whole[index])
              && whole[index].info.DiscreteSize?
              && whole[..index + 1] == whole[..index] + [whole[index]]
              && SizeCalls(whole[..index]) + 1 + IntervalCalls(whole[index].intervals) == SizeCalls(whole[..index + 1]) <= SizeCalls(whole)
              && SizeRecords(whole[..index]) + 1 + |whole[index].intervals| == SizeRecords(whole[..index + 1]) <= SizeRecords(whole)
    ensures index == |whole| ==> d.size(pixel, index) == Ended && whole[..index] == whole
  {
    hide SizeCalls, SizeRecords, IntervalCalls, ParseSize, IntervalsWhole;
    if index < |whole| {
      NextSize(whole, index);
      assert SizeFrom(d, pixel, index, whole[index]);
    }
  }

  lemma SizesStayEnded(d: Driver, pixel: nat, sizes: seq<ReportedSize>, before: bool, after: bool)
    requires before ==> after
    requires forall i :: 0 <= i < |sizes| ==> SizeEnds(d, pixel, sizes[i], before)
    ensures forall i :: 0 <= i < |sizes| ==> SizeEnds(d, pixel, sizes[i], after)
  {
    hide IntervalsWhole;
    forall i | 0 <= i < |sizes|
      ensures SizeEnds(d, pixel, sizes[i], after)
    {
      assert SizeEnds(d, pixel, sizes[i], before);
    }
  }

  /** A list of discrete sizes ends where the driver ends it, or has no valid entry for it. */
  lemma SizesEndHere(d: Driver, pixel: nat, out: seq<ReportedSize>, spent: bool)
    requires SizesFrom(d, pixel, out)
    requires forall i :: 0 <= i < |out| ==> SizeEnds(d, pixel, out[i], spent)
    ensures SizeAt(d, pixel, |out|).None? ==> SizesEnd(d, pixel, out, spent)
    ensures out != [] && |out| < 64 && d.size(pixel, |out|) == Ended
            && (forall i :: 0 <= i < |out| ==> SizeFits(d, pixel, out[i])) ==>
              SizesFit(d, pixel, out)
  {
    hide SizeEnds, IntervalsWhole, SizeFrom, ParseSize;
    if forall i :: 0 <= i < |out| ==> SizeFits(d, pixel, out[i]) {
      assert forall i :: 0 <= i < |out| ==> SizeFits(d, pixel, out[i]) && |out[i].intervals| <= 63;
    }
  }

  lemma SizesEndByLimit(d: Driver, pixel: nat, out: seq<ReportedSize>, spent: bool)
    requires spent || |out| == 64
    requires forall i :: 0 <= i < |out| ==> SizeEnds(d, pixel, out[i], spent)
    ensures SizesEnd(d, pixel, out, spent)
  {
    hide SizeEnds;
  }

  lemma RangeEndsSizes(d: Driver, pixel: nat, out: seq<ReportedSize>, spent: bool)
    requires SizesFrom(d, pixel, out) && out != [] && out[|out| - 1].info.SizeRange?
    requires forall i :: 0 <= i < |out| - 1 ==> SizeEnds(d, pixel, out[i], spent)
    ensures SizesEnd(d, pixel, out, spent)
  {
    hide IntervalsFrom, IntervalsEnd;
    assert SizeFrom(d, pixel, |out| - 1, out[|out| - 1]);
  }

  // ---------- Lists of formats ----------

  lemma NoFormat(d: Driver)
    ensures forall queue :: FormatsFrom(d, queue, [])
    ensures FormatRecords([]) == 0 && FormatCalls([]) == 0
  {
  }

  ghost predicate FormatFits(d: Driver, format: ReportedFormat) {
    SizesFit(d, format.info.pixel, format.sizes)
  }

  ghost predicate FormatEnds(d: Driver, format: ReportedFormat, spent: bool) {
    SizesEnd(d, format.info.pixel, format.sizes, spent)
  }

  lemma NewFormat(d: Driver, format: ReportedFormat, spent: bool)
    ensures FormatEnds(d, format, spent) == SizesEnd(d, format.info.pixel, format.sizes, spent)
    ensures FormatFits(d, format) == SizesFit(d, format.info.pixel, format.sizes)
  {
  }

  lemma FormatsFitMeans(d: Driver, queue: Queue, whole: seq<ReportedFormat>)
    ensures FormatsFit(d, queue, whole) ==> |whole| < 32
  {
  }

  lemma NextFormatFits(d: Driver, queue: Queue, whole: seq<ReportedFormat>, index: nat)
    requires FormatsFit(d, queue, whole) && index <= |whole|
    ensures index < |whole| ==>
              && FormatAt(d, queue, index) == Some(whole[index].info) && SizesFit(d, whole[index].info.pixel, whole[index].sizes)
              && whole[..index + 1] == whole[..index] + [whole[index]]
              && FormatCalls(whole[..index]) + 1 + SizeCalls(whole[index].sizes) + 1 == FormatCalls(whole[..index + 1]) <= FormatCalls(whole)
              && FormatRecords(whole[..index]) + 1 + SizeRecords(whole[index].sizes) == FormatRecords(whole[..index + 1]) <= FormatRecords(whole)
    ensures index == |whole| ==> d.format(queue, index) == Ended && whole[..index] == whole
  {
    hide SizesFit, SizesWhole, SizesFrom, SizeCalls, SizeRecords, FormatCalls, FormatRecords, ParseFormat;
    if index < |whole| {
      NextFormat(whole, index);
      assert FormatFrom(d, queue, index, whole[index]);
    }
  }

  lemma SizesStayEndedWhole(d: Driver, pixel: nat, sizes: seq<ReportedSize>, before: bool, after: bool)
    requires before ==> after
    requires SizesEnd(d, pixel, sizes, before)
    ensures SizesEnd(d, pixel, sizes, after)
  {
    hide SizeEnds;
    SizesStayEnded(d, pixel, sizes, before, after);
  }

  lemma FormatsStayEnded(d: Driver, formats: seq<ReportedFormat>, before: bool, after: bool)
    requires before ==> after
    requires forall i :: 0 <= i < |formats| ==> FormatEnds(d, formats[i], before)
    ensures forall i :: 0 <= i < |formats| ==> FormatEnds(d, formats[i], after)
  {
    hide SizesEnd;
    forall i | 0 <= i < |formats|
      ensures FormatEnds(d, formats[i], after)
    {
      assert FormatEnds(d, formats[i], before);
      SizesStayEndedWhole(d, formats[i].info.pixel, formats[i].sizes, before, after);
    }
  }

  lemma FormatsEndHere(d: Driver, queue: Queue, out: seq<ReportedFormat>, spent: bool)
    requires forall i :: 0 <= i < |out| ==> FormatEnds(d, out[i], spent)
    requires FormatsFrom(d, queue, out)
    requires spent || |out| == 32 || d.format(queue, |out|) == Ended
    ensures FormatsEnd(d, queue, out, spent)
    ensures |out| < 32 && d.format(queue, |out|) == Ended && (forall i :: 0 <= i < |out| ==> FormatFits(d, out[i])) ==>
              FormatsFit(d, queue, out)
  {
    hide SizesEnd, SizesWhole;
    assert forall i :: 0 <= i < |out| ==> FormatEnds(d, out[i], spent) == SizesEnd(d, out[i].info.pixel, out[i].sizes, spent);
    if forall i :: 0 <= i < |out| ==> FormatFits(d, out[i]) {
      assert forall i :: 0 <= i < |out| ==> FormatFits(d, out[i]) && SizesFit(d, out[i].info.pixel, out[i].sizes);
    }
  }

  lemma BreaksHere(d: Driver, queue: Queue, index: nat)
    requires index < 32 && FormatAt(d, queue, index).None? && d.format(queue, index) != Ended
    ensures FormatsBreak(d, queue)
  {
  }

  ghost predicate SomethingBreaks(d: Driver) {
    exists queue :: FormatsBreak(d, queue)
  }

  lemma BrokenEnds(d: Driver, queue: Queue, spent: bool)
    requires FormatsBreak(d, queue)
    ensures FormatsEnd(d, queue, [], spent) && SomethingBreaks(d)
  {
  }

  // ---------- The tables of all queues ----------

  function Joined(parts: seq<seq<ReportedFormat>>): seq<ReportedFormat> {
    if parts == [] then [] else Joined(parts[..|parts| - 1]) + parts[|parts| - 1]
  }

  /** How many questions these tables take, without the one for the capabilities. */
  function TableCalls(parts: seq<seq<ReportedFormat>>): nat {
    if parts == [] then 0 else TableCalls(parts[..|parts| - 1]) + FormatCalls(parts[|parts| - 1]) + 1
  }

  /** The driver's whole tables, and they fit all limits: 2048 questions, 512 records, and the lengths of the lists. */
  ghost predicate Enumerable(d: Driver, queues: seq<Queue>, tables: seq<seq<ReportedFormat>>) {
    && |tables| == |queues|
    && (forall q :: 0 <= q < |queues| ==> FormatsFit(d, queues[q], tables[q]))
    && 1 + TableCalls(tables) <= 2048 && FormatRecords(Joined(tables)) <= 512
  }

  lemma NoTables()
    ensures Joined([]) == [] && TableCalls([]) == 0
  {
  }

  lemma OneMoreTable(parts: seq<seq<ReportedFormat>>, part: seq<ReportedFormat>)
    ensures Joined(parts + [part]) == Joined(parts) + part
    ensures TableCalls(parts + [part]) == TableCalls(parts) + FormatCalls(part) + 1
  {
    hide FormatCalls;
    assert (parts + [part])[..|parts|] == parts;
  }

  lemma {:induction false} TablePrefix(tables: seq<seq<ReportedFormat>>, n: nat)
    requires n <= |tables|
    ensures TableCalls(tables[..n]) <= TableCalls(tables)
    ensures FormatRecords(Joined(tables[..n])) <= FormatRecords(Joined(tables))
    decreases |tables|
  {
    hide FormatCalls, FormatRecords;
    if n < |tables| {
      TablePrefix(tables[..|tables| - 1], n);
      assert tables[..|tables| - 1][..n] == tables[..n];
      RecordsOfSum(Joined(tables[..|tables| - 1]), tables[|tables| - 1]);
    } else {
      assert tables[..n] == tables;
    }
  }

  lemma NextTable(tables: seq<seq<ReportedFormat>>, n: nat)
    requires n < |tables|
    ensures tables[..n + 1] == tables[..n] + [tables[n]]
    ensures TableCalls(tables[..n]) + FormatCalls(tables[n]) + 1 <= TableCalls(tables)
    ensures FormatRecords(Joined(tables[..n])) + FormatRecords(tables[n]) <= FormatRecords(Joined(tables))
  {
    hide FormatCalls, FormatRecords, TableCalls, Joined;
    TablePrefix(tables, n + 1);
    assert tables[..n + 1] == tables[..n] + [tables[n]];
    OneMoreTable(tables[..n], tables[n]);
    RecordsOfSum(Joined(tables[..n]), tables[n]);
  }

  lemma TablesStayEnded(d: Driver, queues: seq<Queue>, parts: seq<seq<ReportedFormat>>, before: bool, after: bool)
    requires (before ==> after) && |parts| <= |queues|
    requires forall q :: 0 <= q < |parts| ==> FormatsEnd(d, queues[q], parts[q], before)
    ensures forall q :: 0 <= q < |parts| ==> FormatsEnd(d, queues[q], parts[q], after)
  {
    hide FormatsBreak, SizesEnd;
    forall q | 0 <= q < |parts|
      ensures FormatsEnd(d, queues[q], parts[q], after)
    {
      assert FormatsEnd(d, queues[q], parts[q], before);
      forall i | 0 <= i < |parts[q]| && SizesEnd(d, parts[q][i].info.pixel, parts[q][i].sizes, before)
        ensures SizesEnd(d, parts[q][i].info.pixel, parts[q][i].sizes, after)
      {
        SizesStayEndedWhole(d, parts[q][i].info.pixel, parts[q][i].sizes, before, after);
      }
    }
  }

  // ---------- The whole probe ----------

  datatype Reason = ValidatedModes | ValidatedWithGaps | NoFormats | NoCapture | QueryFailed | NotCharacterDevice | DeviceUnavailable

  datatype ModeResult = ModeResult(reason: Reason, formats: seq<ReportedFormat>, complete: bool, gaps: seq<Gap>, closed: bool)

  function QueuesOf(singlePlanar: bool, multiPlanar: bool): seq<Queue> {
    (if singlePlanar then [SinglePlanar] else []) + (if multiPlanar then [MultiPlanar] else [])
  }

  /** The driver has a format, and its whole tables fit the limits. */
  ghost predicate HasTables(d: Driver, queues: seq<Queue>) {
    exists tables :: Enumerable(d, queues, tables) && Joined(tables) != []
  }

  /** What the report of an enumeration over these queues looks like; each of its lists goes on as far as it can. */
  ghost predicate Reports(d: Driver, queues: seq<Queue>, r: ModeResult, parts: seq<seq<ReportedFormat>>, spent: bool) {
    && |parts| == |queues| && r.formats == Joined(parts)
    && (forall q :: 0 <= q < |queues| ==> FormatsFrom(d, queues[q], parts[q]) && FormatsEnd(d, queues[q], parts[q], spent))
    && (r.complete ==> Enumerable(d, queues, parts))
  }

  /** The device was asked for its modes: it can capture, and it has described itself. */
  predicate IsAsked(isCharacterDevice: Option<bool>, capabilities: Option<(bool, bool)>) {
    isCharacterDevice == Some(true) && capabilities.Some? && (capabilities.value.0 || capabilities.value.1)
  }

  /**
   * The probe on an open device: capabilities first, then the queues.  Every reported list is the head of the
   * driver's list and goes on as far as it can; at most 2048 ioctls are issued and at most 512 records reported.
   * The report is complete, and then it is the driver's tables, exactly if these tables fit the limits.
   */
  method EnumerateModes(driver: Driver, isCharacterDevice: Option<bool>, capabilities: Option<(bool, bool)>, canClose: bool)
    returns (r: ModeResult, ioctls: nat, ghost parts: seq<seq<ReportedFormat>>, ghost spent: bool)
    ensures ioctls <= 2048 && FormatRecords(r.formats) <= 512
    ensures r.closed == canClose
    ensures r.reason == ValidatedModes <==> r.complete
    ensures r.complete ==> r.gaps == []
    ensures r.complete <==>
              && canClose && IsAsked(isCharacterDevice, capabilities)
              && HasTables(driver, QueuesOf(capabilities.value.0, capabilities.value.1))
    ensures if IsAsked(isCharacterDevice, capabilities)
            then Reports(driver, QueuesOf(capabilities.value.0, capabilities.value.1), r, parts, spent)
            else r.formats == [] && r.gaps == []
    ensures spent ==> ioctls == 2048 || FormatRecords(r.formats) == 512 || SomethingBreaks(driver)
    ensures canClose ==> (r.reason == NotCharacterDevice <==> isCharacterDevice == Some(false))
    ensures canClose ==> (r.reason == QueryFailed <==> isCharacterDevice == Some(true) && capabilities.None?)
    ensures canClose ==> (r.reason == NoCapture <==> isCharacterDevice == Some(true) && capabilities == Some((false, false)))
    ensures canClose ==> (r.reason == ValidatedWithGaps <==> r.formats != [] && r.gaps != [])
    ensures canClose && IsAsked(isCharacterDevice, capabilities) ==> (r.reason == NoFormats <==> r.formats == [])
  {
    hide FormatsFrom, FormatsEnd, FormatRecords, Joined, Enumerable, SomethingBreaks;
    NoFormat(driver);
    r, ioctls, parts, spent := ModeResult(DeviceUnavailable, [], false, [], canClose), 0, [], false;
    if isCharacterDevice.None? || !isCharacterDevice.value {
      r := r.(reason := if isCharacterDevice.None? then DeviceUnavailable else NotCharacterDevice);
    } else if capabilities.None? {
      r, ioctls := r.(reason := QueryFailed), 1;
    } else {
      var queues := QueuesOf(capabilities.value.0, capabilities.value.1);
      if queues == [] {
        r, ioctls := r.(reason := NoCapture), 1;
      } else {
        ghost var tables: seq<seq<ReportedFormat>> := [];
        if HasTables(driver, queues) {
          tables :| Enumerable(driver, queues, tables) && Joined(tables) != [];
        }
        var enumeration := new Enumeration(driver);
        var formats;
        formats, parts := enumeration.AllFormats(queues, tables);
        ioctls, spent := enumeration.budget, enumeration.Spent();
        var reason :=
          if formats == [] then NoFormats else if enumeration.gaps == [] then ValidatedModes else ValidatedWithGaps;
        r := ModeResult(reason, formats, reason == ValidatedModes, enumeration.gaps, canClose);
      }
    }
    if !canClose {
      r := r.(reason := DeviceUnavailable, complete := false);
    }
  }
}
