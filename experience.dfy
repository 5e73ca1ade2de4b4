/**
 * `calculateExperienceFromQuests` of src/data/index.ts: the COMPLETED quests'
 * periods are merged and summed, the last IN PROGRESS quest adds the time from
 * its start to now, and the total gives the level (whole 365.25-day years) and
 * a seconds-into-the-year progress figure.
 *
 * The JavaScript does this in floating point; here the same quantities are
 * exact integers, which agree with it wherever the doubles are exact.
 */
module Experience {
  import opened Wrappers
  import opened Civil
  import opened Types
  import opened Period
  import opened Ranges

  /** 365.25 days in milliseconds. */
  const MsPerYear := 31_557_600_000
  /** 365 days in seconds, the denominator of the progress readout. */
  const SecondsInYear := 31_536_000

  /**
   * `Malformed` is the exception `parsePeriod` throws; `InvalidDate` stands for
   * the NaN level JavaScript computes when a date used in the sum is invalid.
   */
  datatype ExperienceError = Malformed(cause: PeriodError) | InvalidDate

  datatype ExperienceResult = ExperienceResult(level: int, currentProgress: int)

  /** A quest's status with its period as `parsePeriod` reads it. */
  datatype Entry = Entry(status: string, parsed: Result<Span, PeriodError>)

  /** What the `forEach` over the quests collects. */
  datatype Gathered = Gathered(completed: seq<Span>, inProgress: Option<Span>)

  function Entries(quests: seq<Quest>, now: int): (r: seq<Entry>)
    ensures |r| == |quests|
    ensures forall i :: 0 <= i < |quests| ==> r[i] == Entry(quests[i].status, ParsePeriod(quests[i].period, now))
  {
    seq(|quests|, i requires 0 <= i < |quests| => Entry(quests[i].status, ParsePeriod(quests[i].period, now)))
  }

  /**
   * The `forEach`: stop at the first period that does not parse, keep the
   * COMPLETED periods, remember the last IN PROGRESS one, skip the rest.
   */
  function Gather(entries: seq<Entry>): Result<Gathered, PeriodError> {
    if entries == [] then Ok(Gathered([], None))
    else GatherStep(Gather(entries[..|entries| - 1]), entries[|entries| - 1])
  }

  /** One turn of the `forEach`. */
  function GatherStep(sofar: Result<Gathered, PeriodError>, entry: Entry): Result<Gathered, PeriodError> {
    match sofar
    case Err(e) => Err(e)
    case Ok(g) =>
      match entry.parsed
      case Err(e) => Err(e)
      case Ok(range) =>
        if entry.status == Completed then Ok(g.(completed := g.completed + [range]))
        else if entry.status == InProgress then Ok(g.(inProgress := Some(range)))
        else Ok(g)
  }

  lemma GatherPrefix(entries: seq<Entry>, i: int)
    requires 0 <= i < |entries|
    ensures Gather(entries[..i + 1]) == GatherStep(Gather(entries[..i]), entries[i])
  {
    assert entries[..i + 1][..i] == entries[..i] && entries[..i + 1][i] == entries[i];
  }

  /** The spans as ranges of valid instants, or `None` if any end point is an Invalid Date. */
  function ToRanges(spans: seq<Span>): (r: Option<seq<DateRange>>)
    ensures r.Some? <==> forall i :: 0 <= i < |spans| ==> spans[i].start.Some? && spans[i].end.Some?
    ensures r.Some? ==> |r.value| == |spans|
    ensures r.Some? ==> forall i :: 0 <= i < |spans| ==> r.value[i] == DateRange(spans[i].start.value, spans[i].end.value)
  {
    if spans == [] then Some([])
    else
      var head := spans[0];
      match ToRanges(spans[1..])
      case None => None
      case Some(rest) =>
        if head.start.Some? && head.end.Some? then Some([DateRange(head.start.value, head.end.value)] + rest)
        else None
  }

  /** `Math.floor(totalMs / (365.25 days))`. */
  function Level(totalMs: int): int {
    totalMs / MsPerYear
  }

  /** `totalYears % 1`, scaled by `MsPerYear`: the remainder keeps the sign of `totalMs`. */
  function YearRemainderMs(totalMs: int): (r: int)
    ensures -MsPerYear < r < MsPerYear
    ensures totalMs >= 0 ==> r == totalMs % MsPerYear
  {
    if totalMs >= 0 then totalMs % MsPerYear else -((-totalMs) % MsPerYear)
  }

  /** `Math.floor(fractionalYear * secondsInYear)` when no quest is in progress. */
  function StaticProgress(totalMs: int): int {
    YearRemainderMs(totalMs) * SecondsInYear / MsPerYear
  }

  /**
   * `Math.floor((now - progressStart) / 1000)`: from the in-progress start if
   * it lies in the current year, else from January 1 of the current year.
   */
  function InProgressSeconds(start: int, now: int, currentYear: int): int {
    var progressStart := if InYear(start, currentYear) then start else EpochMs(Date(currentYear, 0, 1));
    (now - progressStart) / 1000
  }

  /** Level and progress from the merged completed time and the in-progress span. */
  function Derive(completedMs: int, inProgress: Option<Span>, now: int, currentYear: int): Result<ExperienceResult, ExperienceError> {
    match inProgress
    case None => Ok(ExperienceResult(Level(completedMs), StaticProgress(completedMs)))
    case Some(span) =>
      match span.start
      case None => Err(InvalidDate)
      case Some(start) =>
        Ok(ExperienceResult(Level(completedMs + (now - start)), InProgressSeconds(start, now, currentYear)))
  }

  /** The value `calculateExperienceFromQuests` computes. */
  function ExperienceOf(quests: seq<Quest>, now: int, currentYear: int): Result<ExperienceResult, ExperienceError> {
    ExperienceOfGathered(Gather(Entries(quests, now)), now, currentYear)
  }

  /** What `calculateExperienceFromQuests` makes of what its `forEach` collected. */
  function ExperienceOfGathered(gathered: Result<Gathered, PeriodError>, now: int, currentYear: int): Result<ExperienceResult, ExperienceError> {
    match gathered
    case Err(e) => Err(Malformed(e))
    case Ok(g) =>
      match ToRanges(g.completed)
      case None => Err(InvalidDate)
      case Some(ranges) => Derive(Total(Merged(SortByStart(ranges))), g.inProgress, now, currentYear)
  }

  /** Once a period fails to parse, the rest of the quests do not matter. */
  lemma {:induction false} GatherErrorSticks(entries: seq<Entry>, k: int, e: PeriodError)
    requires 0 <= k <= |entries| && Gather(entries[..k]) == Err(e)
    ensures Gather(entries) == Err(e)
    decreases |entries| - k
  {
    if k < |entries| {
      assert entries[..k + 1][..k] == entries[..k];
      GatherErrorSticks(entries, k + 1, e);
    } else {
      assert entries[..k] == entries;
    }
  }

  /** One turn of the `forEach` over an entry whose period parsed. */
  lemma GatherAdvance(entries: seq<Entry>, i: int, completed: seq<Span>, inProgress: Option<Span>)
    requires 0 <= i < |entries| && entries[i].parsed.Ok?
    requires Gather(entries[..i]) == Ok(Gathered(completed, inProgress))
    ensures entries[i].status == Completed ==>
      Gather(entries[..i + 1]) == Ok(Gathered(completed + [entries[i].parsed.value], inProgress))
    ensures entries[i].status != Completed && entries[i].status == InProgress ==>
      Gather(entries[..i + 1]) == Ok(Gathered(completed, Some(entries[i].parsed.value)))
    ensures entries[i].status != Completed && entries[i].status != InProgress ==>
      Gather(entries[..i + 1]) == Ok(Gathered(completed, inProgress))
  {
    GatherPrefix(entries, i);
  }

  /**
   * The `forEach` of `calculateExperienceFromQuests`: the ranges of the
   * completed quests in order and the range of the last quest in progress,
   * stopping at the first period that does not parse.
   */
  method GatherQuests(quests: seq<Quest>, now: int) returns (g: Result<Gathered, PeriodError>)
    ensures g == Gather(Entries(quests, now))
  {
    ghost var entries := Entries(quests, now);
    var completedRanges: seq<Span> := [];
    var inProgressRange: Option<Span> := None;
    var i := 0;
    while i < |quests|
      invariant 0 <= i <= |quests|
      invariant Gather(entries[..i]) == Ok(Gathered(completedRanges, inProgressRange))
    {
      var quest := quests[i];
      var range := ParsePeriod(quest.period, now);
      assert entries[i] == Entry(quest.status, range);
      GatherPrefix(entries, i);
      if range.Err? {
        GatherErrorSticks(entries, i + 1, range.error);
        return Err(range.error);
      }
      GatherAdvance(entries, i, completedRanges, inProgressRange);
      if quest.status == Completed {
        completedRanges := completedRanges + [range.value];
      } else if quest.status == InProgress {
        inProgressRange := Some(range.value);
      }
      i := i + 1;
    }
    assert entries[..i] == entries;
    g := Ok(Gathered(completedRanges, inProgressRange));
  }

  /**
   * `calculateExperienceFromQuests`, with `now` for the clock and
   * `currentYear` for `now.getFullYear()`.
   */
  method CalculateExperienceFromQuests(quests: seq<Quest>, now: int, currentYear: int)
    returns (r: Result<ExperienceResult, ExperienceError>)
    requires InYear(now, currentYear)
    ensures r == ExperienceOf(quests, now, currentYear)
  {
    var gathered := GatherQuests(quests, now);
    if gathered.Err? {
      return Err(Malformed(gathered.error));
    }
    var ranges := ToRanges(gathered.value.completed);
    if ranges.None? {
      return Err(InvalidDate);
    }
    var a := NewRangeArray(ranges.value);
    var merged := MergeOverlappingRanges(a);
    var completedMs := Total(merged);
    r := Derive(completedMs, gathered.value.inProgress, now, currentYear);
  }

  /** The array `mergeOverlappingRanges` sorts in place, holding `rs`. */
  method NewRangeArray(rs: seq<DateRange>) returns (a: array<DateRange>)
    ensures fresh(a) && a[..] == rs
  {
    a := new DateRange[|rs|](k requires 0 <= k < |rs| => rs[k]);
  }

  // ---------------------------------------------------------------- properties

  /** The level counts whole 365.25-day years. */
  lemma LevelBounds(totalMs: int)
    ensures Level(totalMs) * MsPerYear <= totalMs < (Level(totalMs) + 1) * MsPerYear
    ensures totalMs >= 0 ==> Level(totalMs) >= 0
  {
  }

  /** Without a quest in progress, a non-negative total gives progress in `[0, 31,536,000)`. */
  lemma StaticProgressBounds(totalMs: int)
    requires totalMs >= 0
    ensures 0 <= StaticProgress(totalMs) < SecondsInYear
  {
    var rem := YearRemainderMs(totalMs);
    assert 0 <= rem < MsPerYear;
    assert rem * SecondsInYear < MsPerYear * SecondsInYear;
  }

  /** Exactly a whole number of years shows no progress. */
  lemma StaticProgressWholeYears(years: nat)
    ensures StaticProgress(years * MsPerYear) == 0 && Level(years * MsPerYear) == years
  {
  }

  /**
   * With a quest in progress that started no later than now, progress is
   * under 366 days' worth of seconds, since it counts from a point in the
   * current year. (For a clock in the years 0..99, `new Date(year, 0, 1)`
   * falls in 1900..1999 instead and the bound does not hold.)
   */
  lemma InProgressSecondsBounds(start: int, now: int, currentYear: int)
    requires InYear(now, currentYear) && start <= now && !(0 <= currentYear <= 99)
    ensures 0 <= InProgressSeconds(start, now, currentYear) < 366 * 86_400
  {
    YearLength(currentYear);
    JanuaryFirst(currentYear);
  }

  /**
   * The readout's denominator is 365 days even in a leap year: on the last day
   * of 2024, a quest running since January 1 shows 31,536,000 seconds or more.
   */
  lemma LeapYearReachesDenominator()
    ensures var now := YearStart(2024) + 365 * MsPerDay;
      InYear(now, 2024) && InProgressSeconds(YearStart(2024), now, 2024) == SecondsInYear
  {
    YearLength(2024);
  }

  // ---------------------------------------------------------------- what the forEach collects

  /** The entries whose status is `status`, in list order. */
  function WithStatus(entries: seq<Entry>, status: string): (r: seq<Entry>)
    ensures |r| <= |entries|
    ensures forall e :: e in r ==> e in entries && e.status == status
  {
    if entries == [] then []
    else
      var last := entries[|entries| - 1];
      WithStatus(entries[..|entries| - 1], status) + (if last.status == status then [last] else [])
  }

  /** The parsed periods, with both ends invalid for any that did not parse. */
  function SpansOf(entries: seq<Entry>): (r: seq<Span>)
    ensures |r| == |entries|
    ensures forall i :: 0 <= i < |entries| ==> r[i] == SpanOf(entries[i])
  {
    if entries == [] then [] else SpansOf(entries[..|entries| - 1]) + [SpanOf(entries[|entries| - 1])]
  }

  function SpanOf(e: Entry): Span {
    if e.parsed.Ok? then e.parsed.value else Span(None, None)
  }

  predicate AllParse(entries: seq<Entry>) {
    forall i :: 0 <= i < |entries| ==> entries[i].parsed.Ok?
  }

  /**
   * The only error is a malformed period: the `forEach` throws exactly when
   * some period does not parse, and it reports the first one.
   */
  lemma {:induction false} GatherFails(entries: seq<Entry>)
    ensures Gather(entries).Ok? <==> AllParse(entries)
    ensures Gather(entries).Err? ==>
      exists k :: 0 <= k < |entries| && AllParse(entries[..k]) && entries[k].parsed == Err(Gather(entries).error)
  {
    if entries != [] {
      var front := entries[..|entries| - 1];
      GatherFails(front);
      assert AllParse(entries) <==> AllParse(front) && entries[|entries| - 1].parsed.Ok?;
      if Gather(front).Err? {
        var k :| 0 <= k < |front| && AllParse(front[..k]) && front[k].parsed == Err(Gather(front).error);
        assert front[..k] == entries[..k] && front[k] == entries[k];
      } else if Gather(entries).Err? {
        assert entries[..|entries| - 1] == front;
      }
    }
  }

  /** The quests' `forEach` throws exactly when some period does not parse. */
  lemma QuestsFail(quests: seq<Quest>, now: int)
    ensures Gather(Entries(quests, now)).Err? <==> exists k :: 0 <= k < |quests| && ParsePeriod(quests[k].period, now).Err?
  {
    var es := Entries(quests, now);
    GatherFails(es);
    if !AllParse(es) {
      var k :| 0 <= k < |es| && !es[k].parsed.Ok?;
      assert ParsePeriod(quests[k].period, now).Err?;
    }
  }

  /** When it throws, it names the first period that does not parse. */
  lemma QuestsFailFirst(quests: seq<Quest>, now: int)
    requires Gather(Entries(quests, now)).Err?
    ensures exists k :: (0 <= k < |quests| && (forall j :: 0 <= j < k ==> ParsePeriod(quests[j].period, now).Ok?) &&
                         Gather(Entries(quests, now)).error == MalformedPeriod(quests[k].period))
  {
    var es := Entries(quests, now);
    GatherFails(es);
    var k :| 0 <= k < |es| && AllParse(es[..k]) && es[k].parsed == Err(Gather(es).error);
    ParsedBefore(quests, now, k);
  }

  /** The entries before `k` parse exactly when the quests' periods before `k` do. */
  lemma ParsedBefore(quests: seq<Quest>, now: int, k: int)
    requires 0 <= k < |quests| && AllParse(Entries(quests, now)[..k])
    ensures forall j :: 0 <= j < k ==> ParsePeriod(quests[j].period, now).Ok?
    ensures ParsePeriod(quests[k].period, now) == Entries(quests, now)[k].parsed
  {
    var es := Entries(quests, now);
    forall j | 0 <= j < k ensures ParsePeriod(quests[j].period, now).Ok? {
      assert es[..k][j] == es[j];
    }
  }

  /** The completed ranges are the parsed periods of the COMPLETED quests, in list order. */
  lemma {:induction false} GatherCompleted(entries: seq<Entry>)
    requires Gather(entries).Ok?
    ensures Gather(entries).value.completed == SpansOf(WithStatus(entries, Completed))
  {
    if entries != [] {
      var front := entries[..|entries| - 1];
      GatherCompleted(front);
      var last := entries[|entries| - 1];
      if last.status == Completed {
        assert SpansOf(WithStatus(entries, Completed)) == SpansOf(WithStatus(front, Completed)) + [SpanOf(last)] by {
          var w := WithStatus(front, Completed) + [last];
          assert w[..|w| - 1] == WithStatus(front, Completed);
        }
      }
    }
  }

  /** The quest in progress is the last IN PROGRESS quest in the list, if there is one. */
  lemma {:induction false} GatherInProgress(entries: seq<Entry>)
    requires Gather(entries).Ok?
    ensures var ip := WithStatus(entries, InProgress);
      Gather(entries).value.inProgress == if ip == [] then None else Some(SpanOf(ip[|ip| - 1]))
  {
    if entries != [] {
      GatherInProgress(entries[..|entries| - 1]);
    }
  }

  /** A quest whose status is neither COMPLETED nor IN PROGRESS does not change the result. */
  lemma OtherStatusIgnored(quests: seq<Quest>, other: Quest, now: int, currentYear: int)
    requires other.status != Completed && other.status != InProgress
    requires ParsePeriod(other.period, now).Ok?
    ensures ExperienceOf(quests + [other], now, currentYear) == ExperienceOf(quests, now, currentYear)
  {
    var es0 := Entries(quests, now);
    var e := Entry(other.status, ParsePeriod(other.period, now));
    EntriesSnoc(quests, other, now);
    GatherSkips(es0, e);
    assert Gather(Entries(quests + [other], now)) == Gather(es0);
  }

  lemma EntriesSnoc(quests: seq<Quest>, q: Quest, now: int)
    ensures Entries(quests + [q], now) == Entries(quests, now) + [Entry(q.status, ParsePeriod(q.period, now))]
  {
  }

  lemma GatherSkips(entries: seq<Entry>, e: Entry)
    requires e.status != Completed && e.status != InProgress && e.parsed.Ok?
    ensures Gather(entries + [e]) == Gather(entries)
  {
    assert (entries + [e])[..|entries|] == entries;
  }

  /**
   * Every COMPLETED period parses to valid dates that run forward, and the
   * IN PROGRESS periods parse to a valid start no later than now.
   */
  predicate WellDated(quests: seq<Quest>, now: int) {
    WellDatedEntries(Entries(quests, now), now)
  }

  predicate WellDatedEntries(es: seq<Entry>, now: int) {
    forall i :: 0 <= i < |es| ==> WellDatedEntry(es[i], now)
  }

  predicate WellDatedEntry(e: Entry, now: int) {
    e.parsed.Ok? &&
    (e.status == Completed ==>
      e.parsed.value.start.Some? && e.parsed.value.end.Some? && e.parsed.value.start.value <= e.parsed.value.end.value) &&
    (e.status == InProgress ==> e.parsed.value.start.Some? && e.parsed.value.start.value <= now)
  }

  /** What the `forEach` collects from well-dated quests. */
  lemma WellDatedGather(es: seq<Entry>, now: int)
    requires WellDatedEntries(es, now)
    ensures Gather(es).Ok?
    ensures forall i :: 0 <= i < |Gather(es).value.completed| ==>
      var span := Gather(es).value.completed[i];
      span.start.Some? && span.end.Some? && span.start.value <= span.end.value
    ensures Gather(es).value.inProgress.Some? ==>
      Gather(es).value.inProgress.value.start.Some? && Gather(es).value.inProgress.value.start.value <= now
  {
    GatherFails(es);
    var g := Gather(es).value;
    GatherCompleted(es);
    GatherInProgress(es);
    var completed := WithStatus(es, Completed);
    forall i | 0 <= i < |g.completed| ensures g.completed[i].start.Some? && g.completed[i].end.Some? &&
      g.completed[i].start.value <= g.completed[i].end.value
    {
      assert completed[i] in es;
      assert WellDatedEntry(completed[i], now);
    }
    if g.inProgress.Some? {
      var ip := WithStatus(es, InProgress);
      assert ip[|ip| - 1] in es;
      assert WellDatedEntry(ip[|ip| - 1], now);
    }
  }

  /** Well-dated quests always give a result, and its level is not negative. */
  lemma WellDatedLevel(quests: seq<Quest>, now: int, currentYear: int)
    requires WellDated(quests, now)
    ensures ExperienceOf(quests, now, currentYear).Ok?
    ensures ExperienceOf(quests, now, currentYear).value.level >= 0
  {
    var es := Entries(quests, now);
    WellDatedGather(es, now);
    var g := Gather(es).value;
    var ranges := ToRanges(g.completed).value;
    assert Forward(ranges);
    MergeOverlappingRangesSpec(ranges);
    var completedMs := Total(Merged(SortByStart(ranges)));
    if g.inProgress.Some? {
      LevelBounds(completedMs + (now - g.inProgress.value.start.value));
    } else {
      LevelBounds(completedMs);
    }
  }
}
