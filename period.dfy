/**
 * Reading a quest's period text, such as "2022-06 to 2024-03", "2019 to 2021"
 * or "2024-01-15 to Present", into a pair of instants (`parsePeriod` and
 * `parseDate` of src/data/index.ts).
 */
module Period {
  import opened Wrappers
  import opened JsString
  import opened Civil

  const Separator := " to "

  /** A parsed period in milliseconds; `None` is an Invalid Date, whose time value is NaN. */
  datatype Span = Span(start: Option<int>, end: Option<int>)

  /** The one error `parsePeriod` throws. */
  datatype PeriodError = MalformedPeriod(period: string)

  /**
   * `parseDate`: year, 1-based month and day from `parseInt` of the parts, a
   * missing month reading as January and a missing day as the 1st.
   */
  function ParseDate(parts: seq<string>): (r: Option<int>)
    ensures |parts| == 0 ==> r.None?
    ensures |parts| > 0 && ParseInt(parts[0]).None? ==> r.None?
    ensures |parts| > 1 && ParseInt(parts[1]).None? ==> r.None?
    ensures |parts| > 2 && ParseInt(parts[2]).None? ==> r.None?
    ensures r.None? ==> |parts| == 0 || exists k :: 0 <= k < |parts| && k < 3 && ParseInt(parts[k]).None?
  {
    var year := if |parts| > 0 then ParseInt(parts[0]) else None;
    var month := if |parts| > 1 then (if ParseInt(parts[1]).Some? then Some(ParseInt(parts[1]).value - 1) else None)
                 else Some(0);
    var day := if |parts| > 2 then ParseInt(parts[2]) else Some(1);
    if year.Some? && month.Some? && day.Some? then Some(EpochMs(Date(year.value, month.value, day.value)))
    else None
  }

  /**
   * `parsePeriod`, with the clock reading `now` standing for `new Date()`. It
   * fails exactly when splitting on " to " does not give two parts; backward
   * ranges and unreadable numbers are not rejected.
   */
  function ParsePeriod(period: string, now: int): (r: Result<Span, PeriodError>)
    ensures r.Err? <==> |Split(period, Separator)| != 2
    ensures r.Err? ==> r.error == MalformedPeriod(period)
    ensures r.Ok? ==> r.value.start == ParseDate(Split(Trim(Split(period, Separator)[0]), "-"))
    ensures r.Ok? ==> var endPart := Trim(Split(period, Separator)[1]);
      r.value.end == if Lower(endPart) == "present" then Some(now) else ParseDate(Split(endPart, "-"))
  {
    PeriodOfParts(period, Split(period, Separator), now)
  }

  /** What `parsePeriod` does with the pieces of `period` around " to ". */
  function PeriodOfParts(period: string, parts: seq<string>, now: int): Result<Span, PeriodError> {
    if |parts| != 2 then Err(MalformedPeriod(period))
    else
      Ok(Span(ParseDate(Split(Trim(parts[0]), "-")), PeriodEnd(Trim(parts[1]), now)))
  }

  /** The end of a period: `now` for "present" in any letter case, and otherwise a date. */
  function PeriodEnd(endPart: string, now: int): Option<int> {
    if Lower(endPart) == "present" then Some(now) else ParseDate(Split(endPart, "-"))
  }

  /** A piece of text with no whitespace in it. */
  predicate Token(s: string) {
    forall i :: 0 <= i < |s| ==> !IsWhitespace(s[i])
  }

  /** A non-empty run of decimal digits. */
  predicate Digits(s: string) {
    s != [] && forall i :: 0 <= i < |s| ==> '0' <= s[i] <= '9'
  }

  /**
   * A period written as two tokens around " to " parses: the end is `now`
   * when the second token reads "present" in any letter case, and otherwise
   * both tokens go through `parseDate`.
   */
  lemma WellFormedPeriod(a: string, e: string, now: int)
    requires Token(a) && Token(e)
    ensures ParsePeriod(a + Separator + e, now) ==
      Ok(Span(ParseDate(Split(a, "-")),
              if Lower(e) == "present" then Some(now) else ParseDate(Split(e, "-"))))
  {
    assert ' ' !in a && ' ' !in e;
    SplitAround(a, Separator, e);
    TwoTokens(a + Separator + e, a, e, now);
  }

  /** Two tokens need no trimming. */
  lemma TwoTokens(period: string, a: string, e: string, now: int)
    requires Token(a) && Token(e)
    ensures PeriodOfParts(period, [a, e], now) == Ok(Span(ParseDate(Split(a, "-")), PeriodEnd(e, now)))
  {
    TokenTrimmed(a);
    TokenTrimmed(e);
    assert [a, e][0] == a && [a, e][1] == e;
  }

  /** A token has nothing to trim. */
  lemma TokenTrimmed(s: string)
    requires Token(s)
    ensures Trim(s) == s
  {
    TrimNoop(s);
  }

  /** Text without " to " in it is malformed. */
  lemma MissingSeparator(period: string, now: int)
    requires !Contains(period, Separator)
    ensures ParsePeriod(period, now) == Err(MalformedPeriod(period))
  {
    SplitWithoutSeparator(period, Separator);
  }

  /** Parts that read as the year, the 1-based month and the day give that date. */
  lemma ParseDateOfNumbers(parts: seq<string>, d: Date)
    requires 1 <= |parts| <= 3 && ParseInt(parts[0]) == Some(d.year)
    requires if |parts| > 1 then ParseInt(parts[1]) == Some(d.month + 1) else d.month == 0
    requires if |parts| > 2 then ParseInt(parts[2]) == Some(d.day) else d.day == 1
    ensures ParseDate(parts) == Some(EpochMs(d))
  {
  }

  /** A year alone is January 1 of that year. */
  lemma YearDate(ys: string, y: int)
    requires ParseInt(ys) == Some(y)
    ensures ParseDate([ys]) == Some(EpochMs(Date(y, 0, 1)))
  {
    ParseDateOfNumbers([ys], Date(y, 0, 1));
  }

  /** Year and 1-based month are the first day of that month. */
  lemma MonthDate(ys: string, ms: string, y: int, m: int)
    requires ParseInt(ys) == Some(y) && ParseInt(ms) == Some(m)
    ensures ParseDate([ys, ms]) == Some(EpochMs(Date(y, m - 1, 1)))
  {
    ParseDateOfNumbers([ys, ms], Date(y, m - 1, 1));
  }

  /** Year, 1-based month and day. */
  lemma DayDate(ys: string, ms: string, ds: string, y: int, m: int, d: int)
    requires ParseInt(ys) == Some(y) && ParseInt(ms) == Some(m) && ParseInt(ds) == Some(d)
    ensures ParseDate([ys, ms, ds]) == Some(EpochMs(Date(y, m - 1, d)))
  {
    ParseDateOfNumbers([ys, ms, ds], Date(y, m - 1, d));
  }

  /** A digit run has no dash in it, so splitting on "-" keeps it whole. */
  lemma SplitOne(ys: string)
    requires Digits(ys)
    ensures Split(ys, "-") == [ys]
  {
    MissingFirstChar(ys, "-");
    SplitWithoutSeparator(ys, "-");
  }

  /** Two digit runs joined by a dash split back into the two runs. */
  lemma SplitTwo(ys: string, ms: string)
    requires Digits(ys) && Digits(ms)
    ensures Split(ys + "-" + ms, "-") == [ys, ms]
  {
    SplitAround(ys, "-", ms);
  }

  /** Three digit runs joined by dashes split back into the three runs. */
  lemma SplitThree(ys: string, ms: string, ds: string)
    requires Digits(ys) && Digits(ms) && Digits(ds)
    ensures Split(ys + "-" + ms + "-" + ds, "-") == [ys, ms, ds]
  {
    assert ys + "-" + ms + "-" + ds == ys + "-" + (ms + "-" + ds);
    SplitAtFirst(ys, "-", ms + "-" + ds);
    SplitAround(ms, "-", ds);
  }

  /** Digit runs joined by dashes contain no whitespace. */
  lemma DashedToken(a: string, b: string)
    requires Token(a) && Token(b)
    ensures Token(a + "-" + b)
  {
  }

  /** A digit run contains no whitespace. */
  lemma DigitsToken(s: string)
    requires Digits(s)
    ensures Token(s)
  {
  }

  /** "Y1 to Y2" goes through `parseDate` as the one-part dates Y1 and Y2. */
  lemma YearsText(ys1: string, ys2: string, now: int)
    requires Digits(ys1) && Digits(ys2)
    ensures ParsePeriod(ys1 + Separator + ys2, now) == Ok(Span(ParseDate([ys1]), ParseDate([ys2])))
  {
    DigitsToken(ys1);
    DigitsToken(ys2);
    WellFormedPeriod(ys1, ys2, now);
    assert Lower(ys2) != "present" by { assert Lower(ys2)[0] == ys2[0]; }
    SplitOne(ys1);
    SplitOne(ys2);
  }

  /** "Y1-M1 to Y2-M2" goes through `parseDate` as the two-part dates. */
  lemma MonthsText(ys1: string, ms1: string, ys2: string, ms2: string, now: int)
    requires Digits(ys1) && Digits(ms1) && Digits(ys2) && Digits(ms2)
    ensures ParsePeriod(ys1 + "-" + ms1 + Separator + ys2 + "-" + ms2, now) ==
      Ok(Span(ParseDate([ys1, ms1]), ParseDate([ys2, ms2])))
  {
    var a, e := ys1 + "-" + ms1, ys2 + "-" + ms2;
    assert ys1 + "-" + ms1 + Separator + ys2 + "-" + ms2 == a + Separator + e;
    DigitsToken(ys1);
    DigitsToken(ms1);
    DigitsToken(ys2);
    DigitsToken(ms2);
    DashedToken(ys1, ms1);
    DashedToken(ys2, ms2);
    WellFormedPeriod(a, e, now);
    assert Lower(e) != "present" by { assert Lower(e)[0] == e[0] == ys2[0]; }
    SplitTwo(ys1, ms1);
    SplitTwo(ys2, ms2);
  }

  /** "Y-M-D to Present" goes through `parseDate` as a three-part date and ends now. */
  lemma OngoingText(ys: string, ms: string, ds: string, e: string, now: int)
    requires Digits(ys) && Digits(ms) && Digits(ds) && Token(e) && Lower(e) == "present"
    ensures ParsePeriod(ys + "-" + ms + "-" + ds + Separator + e, now) == Ok(Span(ParseDate([ys, ms, ds]), Some(now)))
  {
    var a := ys + "-" + ms + "-" + ds;
    assert ys + "-" + ms + "-" + ds + Separator + e == a + Separator + e;
    DigitsToken(ys);
    DigitsToken(ms);
    DigitsToken(ds);
    DashedToken(ys, ms);
    DashedToken(ys + "-" + ms, ds);
    WellFormedPeriod(a, e, now);
    SplitThree(ys, ms, ds);
  }

  /** "Y1 to Y2" runs from January 1 of Y1 to January 1 of Y2. */
  lemma YearsPeriod(ys1: string, ys2: string, y1: int, y2: int, now: int)
    requires Digits(ys1) && Digits(ys2) && ParseInt(ys1) == Some(y1) && ParseInt(ys2) == Some(y2)
    ensures ParsePeriod(ys1 + Separator + ys2, now) ==
      Ok(Span(Some(EpochMs(Date(y1, 0, 1))), Some(EpochMs(Date(y2, 0, 1)))))
  {
    YearDate(ys1, y1);
    YearDate(ys2, y2);
    YearsText(ys1, ys2, now);
  }

  /** "Y1-M1 to Y2-M2" runs from the first of month M1 to the first of month M2. */
  lemma MonthsPeriod(ys1: string, ms1: string, ys2: string, ms2: string, y1: int, m1: int, y2: int, m2: int, now: int)
    requires Digits(ys1) && Digits(ms1) && Digits(ys2) && Digits(ms2)
    requires ParseInt(ys1) == Some(y1) && ParseInt(ms1) == Some(m1)
    requires ParseInt(ys2) == Some(y2) && ParseInt(ms2) == Some(m2)
    ensures ParsePeriod(ys1 + "-" + ms1 + Separator + ys2 + "-" + ms2, now) ==
      Ok(Span(Some(EpochMs(Date(y1, m1 - 1, 1))), Some(EpochMs(Date(y2, m2 - 1, 1)))))
  {
    MonthDate(ys1, ms1, y1, m1);
    MonthDate(ys2, ms2, y2, m2);
    MonthsText(ys1, ms1, ys2, ms2, now);
  }

  /** "Y-M-D to Present", in any letter case, runs from that day to `now`. */
  lemma OngoingPeriod(ys: string, ms: string, ds: string, e: string, y: int, m: int, d: int, now: int)
    requires Digits(ys) && Digits(ms) && Digits(ds) && Token(e) && Lower(e) == "present"
    requires ParseInt(ys) == Some(y) && ParseInt(ms) == Some(m) && ParseInt(ds) == Some(d)
    ensures ParsePeriod(ys + "-" + ms + "-" + ds + Separator + e, now) ==
      Ok(Span(Some(EpochMs(Date(y, m - 1, d))), Some(now)))
  {
    DayDate(ys, ms, ds, y, m, d);
    OngoingText(ys, ms, ds, e, now);
  }

  /** A digit run reads as the number it denotes. */
  lemma DecimalReads(s: string, n: int)
    requires Digits(s) && DigitsValue(s, 10) == n
    ensures ParseInt(s) == Some(n)
  {
    ParseIntOfDigits(s);
  }

  /** "2019" reads as 2019. */
  lemma Numeral2019()
    ensures Digits("2019") && ParseInt("2019") == Some(2019)
  {
    assert "2019"[..3] == "201" && "201"[..2] == "20" && "20"[..1] == "2" && "2"[..0] == "";
    DecimalReads("2019", 2019);
  }

  /** "2021" reads as 2021. */
  lemma Numeral2021()
    ensures Digits("2021") && ParseInt("2021") == Some(2021)
  {
    assert "2021"[..3] == "202" && "202"[..2] == "20" && "20"[..1] == "2" && "2"[..0] == "";
    DecimalReads("2021", 2021);
  }

  /** "2022" reads as 2022. */
  lemma Numeral2022()
    ensures Digits("2022") && ParseInt("2022") == Some(2022)
  {
    assert "2022"[..3] == "202" && "202"[..2] == "20" && "20"[..1] == "2" && "2"[..0] == "";
    DecimalReads("2022", 2022);
  }

  /** "2024" reads as 2024. */
  lemma Numeral2024()
    ensures Digits("2024") && ParseInt("2024") == Some(2024)
  {
    assert "2024"[..3] == "202" && "202"[..2] == "20" && "20"[..1] == "2" && "2"[..0] == "";
    DecimalReads("2024", 2024);
  }

  /** A two-digit month or day with a leading zero reads as its last digit. */
  lemma LeadingZero(s: string, n: int)
    requires |s| == 2 && s[0] == '0' && '0' <= s[1] <= '9' && n == s[1] as int - '0' as int
    ensures Digits(s) && ParseInt(s) == Some(n)
  {
    assert s[..1] == "0" && "0"[..0] == "";
    DecimalReads(s, n);
  }

  /** "15" reads as 15. */
  lemma Numeral15()
    ensures Digits("15") && ParseInt("15") == Some(15)
  {
    assert "15"[..1] == "1" && "1"[..0] == "";
    DecimalReads("15", 15);
  }

  /** The periods of the quest list of src/data/index.ts, as written. */
  const AiIntegrationText := "2024-01-15 to Present"
  const BootcampText := "2017-06 to 2017-12"
  const FreelanceText := "2018-03 to 2018-09"
  const MobileOffensiveText := "2019 to 2021"
  const DashboardText := "2021-04 to 2023-08"
  const CloudMigrationText := "2022-06 to 2024-03"

  /** How the example periods are put together. */
  lemma ExampleTexts()
    ensures CloudMigrationText == "2022" + "-" + "06" + Separator + "2024" + "-" + "03"
    ensures MobileOffensiveText == "2019" + Separator + "2021"
    ensures AiIntegrationText == "2024" + "-" + "01" + "-" + "15" + Separator + "Present"
    ensures Token("Present") && Lower("Present") == "present"
  {
  }

  /** "2022-06 to 2024-03" runs from June 1, 2022 to March 1, 2024. */
  lemma CloudMigrationPeriod(now: int)
    ensures ParsePeriod(CloudMigrationText, now) ==
      Ok(Span(Some(EpochMs(Date(2022, 5, 1))), Some(EpochMs(Date(2024, 2, 1)))))
  {
    Numeral2022();
    Numeral2024();
    LeadingZero("06", 6);
    LeadingZero("03", 3);
    ExampleTexts();
    MonthsPeriod("2022", "06", "2024", "03", 2022, 6, 2024, 3, now);
  }

  /** "2019 to 2021" runs from January 1, 2019 to January 1, 2021. */
  lemma MobileOffensivePeriod(now: int)
    ensures ParsePeriod(MobileOffensiveText, now) ==
      Ok(Span(Some(EpochMs(Date(2019, 0, 1))), Some(EpochMs(Date(2021, 0, 1)))))
  {
    Numeral2019();
    Numeral2021();
    ExampleTexts();
    YearsPeriod("2019", "2021", 2019, 2021, now);
  }

  /** "2024-01-15 to Present" runs from January 15, 2024 to the current instant. */
  lemma AiIntegrationPeriod(now: int)
    ensures ParsePeriod(AiIntegrationText, now) ==
      Ok(Span(Some(EpochMs(Date(2024, 0, 15))), Some(now)))
  {
    Numeral2024();
    LeadingZero("01", 1);
    Numeral15();
    ExampleTexts();
    OngoingPeriod("2024", "01", "15", "Present", 2024, 1, 15, now);
  }

  /** "2017" reads as 2017. */
  lemma Numeral2017()
    ensures Digits("2017") && ParseInt("2017") == Some(2017)
  {
    assert "2017"[..3] == "201" && "201"[..2] == "20" && "20"[..1] == "2" && "2"[..0] == "";
    DecimalReads("2017", 2017);
  }

  /** "2018" reads as 2018. */
  lemma Numeral2018()
    ensures Digits("2018") && ParseInt("2018") == Some(2018)
  {
    assert "2018"[..3] == "201" && "201"[..2] == "20" && "20"[..1] == "2" && "2"[..0] == "";
    DecimalReads("2018", 2018);
  }

  /** "2023" reads as 2023. */
  lemma Numeral2023()
    ensures Digits("2023") && ParseInt("2023") == Some(2023)
  {
    assert "2023"[..3] == "202" && "202"[..2] == "20" && "20"[..1] == "2" && "2"[..0] == "";
    DecimalReads("2023", 2023);
  }

  /** "12" reads as 12. */
  lemma Numeral12()
    ensures Digits("12") && ParseInt("12") == Some(12)
  {
    assert "12"[..1] == "1" && "1"[..0] == "";
    DecimalReads("12", 12);
  }

  /** How the other COMPLETED periods of the quest list are put together. */
  lemma MonthTexts()
    ensures BootcampText == "2017" + "-" + "06" + Separator + "2017" + "-" + "12"
    ensures FreelanceText == "2018" + "-" + "03" + Separator + "2018" + "-" + "09"
    ensures DashboardText == "2021" + "-" + "04" + Separator + "2023" + "-" + "08"
  {
  }

  /** "2017-06 to 2017-12" runs from June 1, 2017 to December 1, 2017. */
  lemma BootcampPeriod(now: int)
    ensures ParsePeriod(BootcampText, now) ==
      Ok(Span(Some(EpochMs(Date(2017, 5, 1))), Some(EpochMs(Date(2017, 11, 1)))))
  {
    Numeral2017();
    LeadingZero("06", 6);
    Numeral12();
    MonthTexts();
    MonthsPeriod("2017", "06", "2017", "12", 2017, 6, 2017, 12, now);
  }

  /** "2018-03 to 2018-09" runs from March 1, 2018 to September 1, 2018. */
  lemma FreelancePeriod(now: int)
    ensures ParsePeriod(FreelanceText, now) ==
      Ok(Span(Some(EpochMs(Date(2018, 2, 1))), Some(EpochMs(Date(2018, 8, 1)))))
  {
    Numeral2018();
    LeadingZero("03", 3);
    LeadingZero("09", 9);
    MonthTexts();
    MonthsPeriod("2018", "03", "2018", "09", 2018, 3, 2018, 9, now);
  }

  /** "2021-04 to 2023-08" runs from April 1, 2021 to August 1, 2023. */
  lemma DashboardPeriod(now: int)
    ensures ParsePeriod(DashboardText, now) ==
      Ok(Span(Some(EpochMs(Date(2021, 3, 1))), Some(EpochMs(Date(2023, 7, 1)))))
  {
    Numeral2021();
    Numeral2023();
    LeadingZero("04", 4);
    LeadingZero("08", 8);
    MonthTexts();
    MonthsPeriod("2021", "04", "2023", "08", 2021, 4, 2023, 8, now);
  }

  /** A period with two separators is malformed. */
  lemma ThreeParts(a: string, b: string, c: string, now: int)
    requires Token(a) && Token(b) && Token(c)
    ensures ParsePeriod(a + Separator + b + Separator + c, now).Err?
  {
    assert ' ' !in a && ' ' !in b && ' ' !in c;
    assert a + Separator + b + Separator + c == a + Separator + (b + Separator + c);
    SplitAtFirst(a, Separator, b + Separator + c);
    SplitAround(b, Separator, c);
  }

  /** A period that ends before it starts is accepted as it stands. */
  lemma BackwardPeriod(now: int)
    ensures ParsePeriod("2024 to 2019", now) == Ok(Span(Some(YearStart(2024)), Some(YearStart(2019))))
    ensures YearStart(2019) < YearStart(2024)
  {
    BackwardText();
    Numeral2019();
    Numeral2024();
    YearsPeriod("2024", "2019", 2024, 2019, now);
    YearsInOrder(2019, 2024);
  }

  /** How the backward period is put together. */
  lemma BackwardText()
    ensures "2024 to 2019" == "2024" + Separator + "2019"
  {
  }

  /** January 1 of a later year (outside 0..99) comes later. */
  lemma YearsInOrder(a: int, b: int)
    requires !(0 <= a <= 99) && !(0 <= b <= 99) && a < b
    ensures EpochMs(Date(a, 0, 1)) == YearStart(a) < YearStart(b) == EpochMs(Date(b, 0, 1))
  {
    JanuaryFirst(a);
    JanuaryFirst(b);
    YearStartMonotone(a, b);
  }
}
