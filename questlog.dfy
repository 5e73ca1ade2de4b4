/**
 * The quest list of src/data/index.ts and the experience it gives. The five
 * COMPLETED periods are read, sorted and merged as the experience engine does;
 * the last two overlap and join, and the merged periods add up to 2,163 days,
 * five whole 365.25-day years, before the quest in progress adds its time.
 */
module QuestLog {
  import opened Wrappers
  import opened Civil
  import opened Types
  import opened Period
  import opened Ranges
  import opened Experience

  /** The `quests` array, without descriptions and achievements; no quest carries a `tracked` flag. */
  const Quests: seq<Quest> := [
    Quest("Mission: AI Integration", InProgress, "Future Tech Corp", AiIntegrationText, None),
    Quest("Junior Developer Bootcamp", Completed, "CodeAcademy Inc", BootcampText, None),
    Quest("Freelance Consulting", Completed, "Various Clients", FreelanceText, None),
    Quest("The Mobile Offensive", Completed, "StartupXYZ", MobileOffensiveText, None),
    Quest("Operation: Real-time Dashboard", Completed, "DataViz Solutions", DashboardText, None),
    Quest("The Cloud Migration", Completed, "Tech Corp Industries", CloudMigrationText, None)
  ]

  /** January 15, 2024, where the quest in progress starts. */
  const AiStart := EpochMs(Date(2024, 0, 15))

  /** The period of the quest in progress, up to the clock reading `now`. */
  function AiSpan(now: int): Span {
    Span(Some(AiStart), Some(now))
  }

  /** The COMPLETED periods as date ranges, in list order. */
  const CompletedRanges: seq<DateRange> := [
    DateRange(EpochMs(Date(2017, 5, 1)), EpochMs(Date(2017, 11, 1))),
    DateRange(EpochMs(Date(2018, 2, 1)), EpochMs(Date(2018, 8, 1))),
    DateRange(EpochMs(Date(2019, 0, 1)), EpochMs(Date(2021, 0, 1))),
    DateRange(EpochMs(Date(2021, 3, 1)), EpochMs(Date(2023, 7, 1))),
    DateRange(EpochMs(Date(2022, 5, 1)), EpochMs(Date(2024, 2, 1)))
  ]

  /** The span `parsePeriod` gives for a period with two valid dates. */
  function SpanOfRange(r: DateRange): Span {
    Span(Some(r.start), Some(r.end))
  }

  /** The COMPLETED periods as `parsePeriod` reads them. */
  const CompletedSpans: seq<Span> := [
    SpanOfRange(CompletedRanges[0]), SpanOfRange(CompletedRanges[1]), SpanOfRange(CompletedRanges[2]),
    SpanOfRange(CompletedRanges[3]), SpanOfRange(CompletedRanges[4])
  ]

  // ---------------------------------------------------------------- parsing

  /** The statuses and periods of the quest list, position by position. */
  lemma QuestsFields()
    ensures |Quests| == 6
    ensures Quests[0].status == InProgress && Quests[0].period == AiIntegrationText
    ensures Quests[1].status == Completed && Quests[1].period == BootcampText
    ensures Quests[2].status == Completed && Quests[2].period == FreelanceText
    ensures Quests[3].status == Completed && Quests[3].period == MobileOffensiveText
    ensures Quests[4].status == Completed && Quests[4].period == DashboardText
    ensures Quests[5].status == Completed && Quests[5].period == CloudMigrationText
  {
  }

  /** Quest `k` enters the `forEach` with its status and its parsed period. */
  lemma QuestEntry(now: int, k: int, status: string, period: string, span: Span)
    requires 0 <= k < |Quests| && Quests[k].status == status && Quests[k].period == period
    requires ParsePeriod(period, now) == Ok(span)
    ensures Entries(Quests, now)[k] == Entry(status, Ok(span))
  {
  }

  lemma AiEntry(now: int)
    ensures Entries(Quests, now)[0] == Entry(InProgress, Ok(AiSpan(now)))
  {
    AiIntegrationPeriod(now);
    QuestsFields();
    QuestEntry(now, 0, InProgress, AiIntegrationText, AiSpan(now));
  }

  lemma BootcampEntry(now: int)
    ensures Entries(Quests, now)[1] == Entry(Completed, Ok(CompletedSpans[0]))
  {
    BootcampPeriod(now);
    QuestsFields();
    QuestEntry(now, 1, Completed, BootcampText, CompletedSpans[0]);
  }

  lemma FreelanceEntry(now: int)
    ensures Entries(Quests, now)[2] == Entry(Completed, Ok(CompletedSpans[1]))
  {
    FreelancePeriod(now);
    QuestsFields();
    QuestEntry(now, 2, Completed, FreelanceText, CompletedSpans[1]);
  }

  lemma MobileEntry(now: int)
    ensures Entries(Quests, now)[3] == Entry(Completed, Ok(CompletedSpans[2]))
  {
    MobileOffensivePeriod(now);
    QuestsFields();
    QuestEntry(now, 3, Completed, MobileOffensiveText, CompletedSpans[2]);
  }

  lemma DashboardEntry(now: int)
    ensures Entries(Quests, now)[4] == Entry(Completed, Ok(CompletedSpans[3]))
  {
    DashboardPeriod(now);
    QuestsFields();
    QuestEntry(now, 4, Completed, DashboardText, CompletedSpans[3]);
  }

  lemma CloudEntry(now: int)
    ensures Entries(Quests, now)[5] == Entry(Completed, Ok(CompletedSpans[4]))
  {
    CloudMigrationPeriod(now);
    QuestsFields();
    QuestEntry(now, 5, Completed, CloudMigrationText, CompletedSpans[4]);
  }

  /** The `forEach` over six entries shaped like the quest list's: one in progress, then five completed. */
  lemma GatherInProgressFirst(es: seq<Entry>, ai: Span, cs: seq<Span>)
    requires |es| == 6 && |cs| == 5 && es[0] == Entry(InProgress, Ok(ai))
    requires es[1] == Entry(Completed, Ok(cs[0])) && es[2] == Entry(Completed, Ok(cs[1]))
    requires es[3] == Entry(Completed, Ok(cs[2])) && es[4] == Entry(Completed, Ok(cs[3]))
    requires es[5] == Entry(Completed, Ok(cs[4]))
    ensures Gather(es) == Ok(Gathered(cs, Some(ai)))
  {
    assert es[..0] == [];
    GatherAdvance(es, 0, [], None);
    assert [] + [cs[0]] == cs[..1];
    GatherAdvance(es, 1, [], Some(ai));
    assert cs[..1] + [cs[1]] == cs[..2];
    GatherAdvance(es, 2, cs[..1], Some(ai));
    assert cs[..2] + [cs[2]] == cs[..3];
    GatherAdvance(es, 3, cs[..2], Some(ai));
    assert cs[..3] + [cs[3]] == cs[..4];
    GatherAdvance(es, 4, cs[..3], Some(ai));
    assert cs[..4] + [cs[4]] == cs;
    GatherAdvance(es, 5, cs[..4], Some(ai));
    assert es[..6] == es;
  }

  /**
   * The `forEach` over the quest list succeeds: it collects the five COMPLETED
   * periods in list order, and the quest in progress is the first quest.
   */
  lemma QuestsGather(now: int)
    ensures Gather(Entries(Quests, now)) == Ok(Gathered(CompletedSpans, Some(AiSpan(now))))
  {
    AiEntry(now);
    BootcampEntry(now);
    FreelanceEntry(now);
    MobileEntry(now);
    DashboardEntry(now);
    CloudEntry(now);
    GatherInProgressFirst(Entries(Quests, now), AiSpan(now), CompletedSpans);
  }

  /** Spans whose ends are all valid dates become the ranges between those dates. */
  lemma SpansAsRanges(spans: seq<Span>, rs: seq<DateRange>)
    requires |spans| == |rs|
    requires forall i :: 0 <= i < |rs| ==> spans[i] == Span(Some(rs[i].start), Some(rs[i].end))
    ensures ToRanges(spans) == Some(rs)
  {
    assert ToRanges(spans).value == rs;
  }

  /** Five spans with valid dates become their five ranges. */
  lemma FiveAsRanges(rs: seq<DateRange>)
    requires |rs| == 5
    ensures ToRanges([SpanOfRange(rs[0]), SpanOfRange(rs[1]), SpanOfRange(rs[2]), SpanOfRange(rs[3]), SpanOfRange(rs[4])]) == Some(rs)
  {
    SpansAsRanges([SpanOfRange(rs[0]), SpanOfRange(rs[1]), SpanOfRange(rs[2]), SpanOfRange(rs[3]), SpanOfRange(rs[4])], rs);
  }

  /** Every COMPLETED period has two valid dates, so all five become ranges. */
  lemma CompletedAsRanges()
    ensures ToRanges(CompletedSpans) == Some(CompletedRanges)
  {
    FiveAsRanges(CompletedRanges);
  }

  // ---------------------------------------------------------------- merging

  /** Days from 1970-01-01 to the first of January of the years the quest list names. */
  lemma QuestYearStarts()
    ensures DaysBeforeYear(2017) == 17167 && DaysBeforeYear(2018) == 17532 && DaysBeforeYear(2019) == 17897
    ensures DaysBeforeYear(2021) == 18628 && DaysBeforeYear(2022) == 18993 && DaysBeforeYear(2023) == 19358
    ensures DaysBeforeYear(2024) == 19723
  {
  }

  /** Days since 1970-01-01 of the dates in the first three COMPLETED periods. */
  lemma EarlyQuestDays()
    ensures DayNumber(Date(2017, 5, 1)) == 17318 && DayNumber(Date(2017, 11, 1)) == 17501
    ensures DayNumber(Date(2018, 2, 1)) == 17591 && DayNumber(Date(2018, 8, 1)) == 17775
    ensures DayNumber(Date(2019, 0, 1)) == 17897 && DayNumber(Date(2021, 0, 1)) == 18628
  {
    QuestYearStarts();
    DayNumberInRange(2017, 5, 1);
    DayNumberInRange(2017, 11, 1);
    DayNumberInRange(2018, 2, 1);
    DayNumberInRange(2018, 8, 1);
    DayNumberInRange(2019, 0, 1);
    DayNumberInRange(2021, 0, 1);
  }

  /** Days since 1970-01-01 of the dates in the last two COMPLETED periods and of the IN PROGRESS start. */
  lemma LateQuestDays()
    ensures DayNumber(Date(2021, 3, 1)) == 18718 && DayNumber(Date(2023, 7, 1)) == 19570
    ensures DayNumber(Date(2022, 5, 1)) == 19144 && DayNumber(Date(2024, 2, 1)) == 19783
    ensures DayNumber(Date(2024, 0, 15)) == 19737
  {
    QuestYearStarts();
    DayNumberInRange(2021, 3, 1);
    DayNumberInRange(2023, 7, 1);
    DayNumberInRange(2022, 5, 1);
    DayNumberInRange(2024, 2, 1);
    DayNumberInRange(2024, 0, 15);
  }

  /** Five ranges already in order of start are left as they are by the sort. */
  lemma SortedFive(a: DateRange, b: DateRange, c: DateRange, d: DateRange, e: DateRange)
    requires a.start <= b.start <= c.start <= d.start <= e.start
    ensures SortByStart([a, b, c, d, e]) == [a, b, c, d, e]
  {
    assert SortedByStart([a, b, c, d, e]);
    SortByStartSortedNoop([a, b, c, d, e]);
  }

  lemma SeparatedFour(a: DateRange, b: DateRange, c: DateRange, d: DateRange)
    requires a.end < b.start && b.end < c.start && c.end < d.start
    ensures Separated([a, b, c, d]) && [a, b, c, d][..3] == [a, b, c]
  {
  }

  /** Four ranges add up to the sum of their lengths. */
  lemma TotalFour(a: DateRange, b: DateRange, c: DateRange, d: DateRange)
    ensures Total([a, b, c, d]) == Length(a) + Length(b) + Length(c) + Length(d)
  {
    TotalSnoc([], a);
    assert [] + [a] == [a];
    TotalSnoc([a], b);
    assert [a] + [b] == [a, b];
    TotalSnoc([a, b], c);
    assert [a, b] + [c] == [a, b, c];
    TotalSnoc([a, b, c], d);
    assert [a, b, c] + [d] == [a, b, c, d];
  }

  /** The dates of the first three COMPLETED periods, in milliseconds. */
  lemma EarlyInstants()
    ensures EpochMs(Date(2017, 5, 1)) == 17318 * MsPerDay && EpochMs(Date(2017, 11, 1)) == 17501 * MsPerDay
    ensures EpochMs(Date(2018, 2, 1)) == 17591 * MsPerDay && EpochMs(Date(2018, 8, 1)) == 17775 * MsPerDay
    ensures EpochMs(Date(2019, 0, 1)) == 17897 * MsPerDay && EpochMs(Date(2021, 0, 1)) == 18628 * MsPerDay
  {
    EarlyQuestDays();
  }

  /** The dates of the last two COMPLETED periods, in milliseconds. */
  lemma LateInstants()
    ensures EpochMs(Date(2021, 3, 1)) == 18718 * MsPerDay && EpochMs(Date(2023, 7, 1)) == 19570 * MsPerDay
    ensures EpochMs(Date(2022, 5, 1)) == 19144 * MsPerDay && EpochMs(Date(2024, 2, 1)) == 19783 * MsPerDay
  {
    LateQuestDays();
  }

  /**
   * The shape of the quest list's COMPLETED periods: three ranges apart from
   * one another and from a fourth, which the fifth overlaps and outlasts.
   */
  predicate QuestShape(rs: seq<DateRange>) {
    && |rs| == 5
    && rs[0].start <= rs[0].end < rs[1].start <= rs[1].end < rs[2].start <= rs[2].end
    && rs[2].end < rs[3].start <= rs[4].start <= rs[3].end <= rs[4].end
  }

  lemma CompletedShape()
    ensures QuestShape(CompletedRanges)
  {
    EarlyInstants();
    LateInstants();
  }

  /** Ranges of that shape merge into four, the last two joined. */
  lemma MergeShape(rs: seq<DateRange>)
    requires QuestShape(rs)
    ensures Merged(SortByStart(rs)) == rs[..3] + [DateRange(rs[3].start, rs[4].end)]
  {
    var a, b, c, d, e := rs[0], rs[1], rs[2], rs[3], rs[4];
    assert rs == [a, b, c, d, e];
    SortedFive(a, b, c, d, e);
    SeparatedFour(a, b, c, d);
    assert [a, b, c, d, e] == [a, b, c, d] + [e];
    MergeIntoLast([a, b, c, d], e);
    assert rs[..3] == [a, b, c];
  }

  /** The total of ranges of that shape: the three apart, then the fourth's start to the fifth's end. */
  lemma TotalShape(rs: seq<DateRange>)
    requires QuestShape(rs)
    ensures Total(Merged(SortByStart(rs))) ==
      Length(rs[0]) + Length(rs[1]) + Length(rs[2]) + (rs[4].end - rs[3].start)
  {
    MergeShape(rs);
    TotalFour(rs[0], rs[1], rs[2], DateRange(rs[3].start, rs[4].end));
    assert rs[..3] + [DateRange(rs[3].start, rs[4].end)] == [rs[0], rs[1], rs[2], DateRange(rs[3].start, rs[4].end)];
  }

  /**
   * The quest list's COMPLETED periods are 2017-06 to 2017-12, 2018-03 to
   * 2018-09, 2019 to 2021, 2021-04 to 2023-08 and 2022-06 to 2024-03. Merging
   * joins the last two, which overlap, into April 1, 2021 to March 1, 2024;
   * the other three stay apart.
   */
  lemma CompletedQuestsMerge()
    ensures Merged(SortByStart(CompletedRanges)) ==
      CompletedRanges[..3] + [DateRange(EpochMs(Date(2021, 3, 1)), EpochMs(Date(2024, 2, 1)))]
  {
    CompletedShape();
    MergeShape(CompletedRanges);
  }

  /** The merged COMPLETED periods add up to 2,163 days, which is five whole years of experience. */
  lemma CompletedQuestsTotal()
    ensures Total(Merged(SortByStart(CompletedRanges))) == 2163 * MsPerDay
    ensures Level(2163 * MsPerDay) == 5
  {
    CompletedShape();
    TotalShape(CompletedRanges);
    EarlyInstants();
    LateInstants();
    FiveYears();
  }

  /** 2,163 days are five whole 365.25-day years. */
  lemma FiveYears()
    ensures Level(2163 * MsPerDay) == 5
  {
  }

  // ---------------------------------------------------------------- experience

  /**
   * `calculateExperienceFromQuests(quests)`: 2,163 days of completed work,
   * and the quest in progress from January 15, 2024 to now.
   */
  lemma QuestsExperience(now: int, currentYear: int)
    ensures ExperienceOf(Quests, now, currentYear) == Derive(2163 * MsPerDay, Some(AiSpan(now)), now, currentYear)
  {
    QuestsGather(now);
    CompletedAsRanges();
    CompletedQuestsTotal();
  }

  /**
   * Once January 15, 2024 has passed, the quest list gives at least level 5:
   * the completed years plus the time spent on the quest in progress. The
   * progress readout counts from that start.
   */
  lemma QuestsLevel(now: int, currentYear: int)
    requires AiStart <= now
    ensures ExperienceOf(Quests, now, currentYear).Ok?
    ensures ExperienceOf(Quests, now, currentYear).value.level == Level(2163 * MsPerDay + (now - AiStart)) >= 5
    ensures ExperienceOf(Quests, now, currentYear).value.currentProgress == InProgressSeconds(AiStart, now, currentYear)
  {
    QuestsExperience(now, currentYear);
    LevelFiveOrMore(now - AiStart);
  }

  /** 2,163 days and any further time make at least five whole years. */
  lemma LevelFiveOrMore(extra: int)
    requires extra >= 0
    ensures Level(2163 * MsPerDay + extra) >= 5
  {
    LevelBounds(2163 * MsPerDay + extra);
  }
}
