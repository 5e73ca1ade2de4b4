/**
 * The helpers of the STAT screen: the live XP readout of the quest in
 * progress, the display names of effects, and the `m:ss` time left of a
 * temporary effect.
 */
module StatContent {
  import opened Wrappers
  import opened JsString
  import opened Civil
  import opened Types
  import Period
  import Experience
  import Effects

  // ---------------------------------------------------------------- calculateCurrentXP

  /** `quests.find(quest => quest.status === 'IN PROGRESS')`. */
  function FirstInProgress(quests: seq<Quest>): Option<Quest> {
    if quests == [] then None
    else if quests[0].status == InProgress then Some(quests[0])
    else FirstInProgress(quests[1..])
  }

  /**
   * The quest start the readout uses, `None` for an invalid date: the start of
   * the period parsed as `parseDate` does when the period mentions "present"
   * in any case, otherwise January 1 of the current year.
   */
  function QuestStart(period: string, currentYear: int): Option<int> {
    if Contains(Lower(period), "present") then Period.ParseDate(Split(Trim(Split(period, " to ")[0]), "-"))
    else Some(EpochMs(Date(currentYear, 0, 1)))
  }

  /** The quest start if its year is the current year, else January 1 of the current year; an invalid date has no year. */
  function ProgressStart(start: Option<int>, currentYear: int): int {
    if start.Some? && InYear(start.value, currentYear) then start.value else EpochMs(Date(currentYear, 0, 1))
  }

  /** The readout: the stored text, or the seconds elapsed over the seconds of a 365-day year. */
  datatype XpReadout = StoredXp(text: string) | YearProgress(secondsElapsed: int, secondsInYear: int)

  /**
   * `calculateCurrentXP()` with `now` for the clock and `currentYear` for its
   * year; the counts are shown with `toLocaleString`, which is not modelled.
   */
  function CalculateCurrentXp(quests: seq<Quest>, candidateXp: string, now: int, currentYear: int): XpReadout {
    match FirstInProgress(quests)
    case None => StoredXp(candidateXp)
    case Some(q) =>
      YearProgress((now - ProgressStart(QuestStart(q.period, currentYear), currentYear)) / 1000, Experience.SecondsInYear)
  }

  /** `find` returns the first quest in progress. */
  lemma {:induction false} FirstInProgressFound(quests: seq<Quest>, k: int)
    requires 0 <= k < |quests| && quests[k].status == InProgress
    requires forall j :: 0 <= j < k ==> quests[j].status != InProgress
    ensures FirstInProgress(quests) == Some(quests[k])
  {
    if k > 0 {
      assert quests[0].status != InProgress;
      assert forall j :: 0 <= j < k - 1 ==> quests[1..][j] == quests[j + 1];
      FirstInProgressFound(quests[1..], k - 1);
    }
  }

  /** `find` finds nothing exactly when no quest is in progress. */
  lemma {:induction false} FirstInProgressNone(quests: seq<Quest>)
    ensures FirstInProgress(quests).None? <==> forall i :: 0 <= i < |quests| ==> quests[i].status != InProgress
  {
    if quests != [] {
      FirstInProgressNone(quests[1..]);
      assert forall i :: 0 < i < |quests| ==> quests[i] == quests[1..][i - 1];
    }
  }

  /** Without a quest in progress the readout is the stored XP; with one it counts over 31,536,000 seconds. */
  lemma XpWithoutQuest(quests: seq<Quest>, candidateXp: string, now: int, currentYear: int)
    ensures var r := CalculateCurrentXp(quests, candidateXp, now, currentYear);
      && (r == StoredXp(candidateXp) <==> forall i :: 0 <= i < |quests| ==> quests[i].status != InProgress)
      && (r.YearProgress? ==> r.secondsInYear == 31_536_000)
  {
    FirstInProgressNone(quests);
  }

  /** The readout follows the first quest in progress in list order. */
  lemma FirstQuestUsed(quests: seq<Quest>, k: int, candidateXp: string, now: int, currentYear: int)
    requires 0 <= k < |quests| && quests[k].status == InProgress
    requires forall j :: 0 <= j < k ==> quests[j].status != InProgress
    ensures CalculateCurrentXp(quests, candidateXp, now, currentYear) ==
      YearProgress((now - ProgressStart(QuestStart(quests[k].period, currentYear), currentYear)) / 1000, 31_536_000)
  {
    FirstInProgressFound(quests, k);
  }

  /** A period that does not mention "present" counts from January 1 of the current year. */
  lemma FallbackFromJanuary(period: string, currentYear: int)
    requires !Contains(Lower(period), "present")
    ensures ProgressStart(QuestStart(period, currentYear), currentYear) == EpochMs(Date(currentYear, 0, 1))
  {
  }

  /** So does a quest start that cannot be parsed. */
  lemma InvalidStartFromJanuary(period: string, currentYear: int)
    requires QuestStart(period, currentYear).None?
    ensures ProgressStart(QuestStart(period, currentYear), currentYear) == EpochMs(Date(currentYear, 0, 1))
  {
  }

  /** With a valid start the seconds are those `calculateExperienceFromQuests` reports as its progress. */
  lemma AgreesWithDataModule(start: int, now: int, currentYear: int)
    ensures (now - ProgressStart(Some(start), currentYear)) / 1000 == Experience.InProgressSeconds(start, now, currentYear)
  {
  }

  /**
   * The seconds lie in `[0, 366 days)` when the clock is outside the years
   * 0..99 and a start in the current year is not in the future.
   */
  lemma ElapsedBounds(start: Option<int>, now: int, currentYear: int)
    requires InYear(now, currentYear) && !(0 <= currentYear <= 99)
    requires start.Some? && InYear(start.value, currentYear) ==> start.value <= now
    ensures 0 <= (now - ProgressStart(start, currentYear)) / 1000 < 366 * 86_400
  {
    JanuaryFirst(currentYear);
    YearLength(currentYear);
  }

  // ---------------------------------------------------------------- getEffectDisplayName

  /** The `displayNames` table. */
  const DisplayNames: map<string, string> := map[
    "typing_speed" := "Typing Speed", "code_quality" := "Code Quality", "bug_detection" := "Bug Detection",
    "error_resolution" := "Error Resolution", "bug_fix_success" := "Bug Fix Success", "focus" := "Focus",
    "comfort" := "Comfort", "eye_comfort" := "Eye Comfort", "typing_comfort" := "Typing Comfort",
    "alertness" := "Alertness", "productivity" := "Productivity", "energy" := "Energy",
    "hp" := "Health Points", "ap" := "Action Points"]

  /** `getEffectDisplayName(effectName)`: the table's entry, else underscores to spaces and each word capitalised. */
  function EffectDisplayName(effectName: string): string {
    if effectName in DisplayNames && DisplayNames[effectName] != "" then DisplayNames[effectName]
    else CapitalizeWords(ReplaceChar(effectName, '_', ' '))
  }

  /** The table names exactly the 14 stats of `getLegacyStats`. */
  lemma TableNamesTheStats()
    ensures DisplayNames.Keys == set k | k in Effects.StatNames
  {
  }

  /** Two table entries. */
  lemma TableExamples()
    ensures EffectDisplayName("hp") == "Health Points"
    ensures EffectDisplayName("bug_fix_success") == "Bug Fix Success"
  {
  }

  /**
   * A name outside the table keeps its length, loses every underscore, and
   * has the first letter of each word upper-cased and the rest kept.
   */
  lemma FallbackShape(effectName: string, r: string)
    requires effectName !in DisplayNames && r == EffectDisplayName(effectName)
    ensures |r| == |effectName|
    ensures '_' !in r
    ensures forall i :: 0 <= i < |r| ==> FallbackChar(effectName, r, i)
  {
    forall i | 0 <= i < |r|
      ensures r[i] != '_'
      ensures FallbackChar(effectName, r, i)
    {
      FallbackAt(effectName, i);
    }
  }

  /**
   * Character `i` of the fallback name `r`: an underscore becomes a space, a
   * character after the start, an underscore or a non-word character is
   * upper-cased, and one after a word character other than `_` is kept.
   */
  predicate FallbackChar(effectName: string, r: string, i: int)
    requires 0 <= i < |effectName| && i < |r|
  {
    && (effectName[i] == '_' ==> r[i] == ' ')
    && (effectName[i] != '_' && (i == 0 || effectName[i - 1] == '_' || !IsWordChar(effectName[i - 1])) ==> r[i] == UpperChar(effectName[i]))
    && (effectName[i] != '_' && i > 0 && effectName[i - 1] != '_' && IsWordChar(effectName[i - 1]) ==> r[i] == effectName[i])
  }

  /** One character of the fallback name. */
  lemma FallbackAt(effectName: string, i: int)
    requires effectName !in DisplayNames && 0 <= i < |effectName|
    ensures var r := EffectDisplayName(effectName);
      && |r| == |effectName|
      && r[i] != '_'
      && FallbackChar(effectName, r, i)
  {
    var spaced := ReplaceChar(effectName, '_', ' ');
    assert spaced[i] == if effectName[i] == '_' then ' ' else effectName[i];
    if i > 0 {
      assert spaced[i - 1] == if effectName[i - 1] == '_' then ' ' else effectName[i - 1];
    }
    var c := spaced[i];
    var r := CapitalizeWords(spaced);
    assert r[i] == if IsWordChar(c) && (i == 0 || !IsWordChar(spaced[i - 1])) then UpperChar(c) else c;
    if !IsWordChar(c) {
      assert UpperChar(c) == c;
    }
  }

  /** `deep_work` is shown as "Deep Work". */
  lemma DeepWorkExample()
    ensures EffectDisplayName("deep_work") == "Deep Work"
  {
    var spaced := ReplaceChar("deep_work", '_', ' ');
    assert spaced == "deep work";
    assert CapitalizeWords(spaced) == "Deep Work";
  }

  // ---------------------------------------------------------------- time left

  /** `%` of JavaScript: the remainder takes the sign of the dividend. */
  function JsRem(a: int, b: int): int
    requires b > 0
  {
    if a >= 0 then a % b else -((-a) % b)
  }

  /** `${Math.floor(duration / 60)}:${(duration % 60).toString().padStart(2, '0')}`. */
  function TimeLeft(duration: int): string {
    IntToString(duration / 60) + ":" + PadStart(IntToString(JsRem(duration, 60)), 2, '0')
  }

  /** The two-digit seconds field of a non-negative duration. */
  lemma SecondsField(s: nat)
    requires s < 60
    ensures var f := PadStart(IntToString(s), 2, '0');
      && |f| == 2 && (forall i :: 0 <= i < 2 ==> '0' <= f[i] <= '9')
      && ParseInt(f) == Some(s)
  {
    if s < 10 {
      PaddedDigit(s);
    } else {
      TwoDigits(s);
    }
  }

  lemma PaddedDigit(s: nat)
    requires s < 10
    ensures var f := PadStart(IntToString(s), 2, '0');
      && |f| == 2 && (forall i :: 0 <= i < 2 ==> '0' <= f[i] <= '9')
      && ParseInt(f) == Some(s)
  {
    var c := DigitChar(s);
    var f := PadStart(IntToString(s), 2, '0');
    assert IntToString(s) == [c];
    assert f == ['0', c];
    assert f[..1] == ['0'] && ['0'][..0] == [];
    assert DigitsValue(['0'], 10) == 0;
    assert DigitsValue(f, 10) == s;
    ParseIntOfDigits(f);
  }

  lemma TwoDigits(s: nat)
    requires 10 <= s < 60
    ensures var f := PadStart(IntToString(s), 2, '0');
      && |f| == 2 && (forall i :: 0 <= i < 2 ==> '0' <= f[i] <= '9')
      && ParseInt(f) == Some(s)
  {
    var f := IntToString(s);
    assert f == NatToString(s / 10) + [DigitChar(s % 10)];
    assert |f| == 2;
    assert PadStart(f, 2, '0') == f;
    ParseIntOfNatToString(s);
  }

  /**
   * For a non-negative duration the text is minutes, a colon and a two-digit
   * seconds field in 00..59, and it reads back as the duration.
   */
  lemma TimeLeftReadsBack(duration: nat)
    ensures var parts := Split(TimeLeft(duration), ":");
      && |parts| == 2 && |parts[1]| == 2
      && ParseInt(parts[0]) == Some(duration / 60)
      && ParseInt(parts[1]) == Some(duration % 60)
      && 0 <= duration % 60 < 60
      && (duration / 60) * 60 + duration % 60 == duration
  {
    var m, f := NatToString(duration / 60), PadStart(IntToString(duration % 60), 2, '0');
    SecondsField(duration % 60);
    assert ':' !in m;
    assert ':' !in f;
    SplitAround(m, ":", f);
    ParseIntOfNatToString(duration / 60);
  }

  /** Two minutes and five seconds are shown as `2:05`. */
  lemma TimeLeftExample()
    ensures TimeLeft(125) == "2:05"
  {
    assert IntToString(2) == "2";
    assert IntToString(5) == "5";
  }
}
