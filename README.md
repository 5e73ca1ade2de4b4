# fallout_cv_app core, modelled in Dafny

fallout_cv_app is a résumé presented as a Pip-Boy screen. Its logic is small and spread over a
few files. This project models that logic and proves what each part promises:

- **The experience engine** (`src/data/index.ts`):
  - quest periods such as `"2022-06 to 2024-03"`, `"2019 to 2021"` and `"2024-01-15 to Present"` are read into pairs of instants;
  - the COMPLETED ranges are sorted in place and merged where they overlap or touch;
  - their lengths are summed;
  - the quest IN PROGRESS adds its elapsed time;
  - the total gives a level (whole 365.25-day years) and a seconds-into-the-year progress figure.
- **The effects aggregator** (`src/utils/effectsCalculator.ts`):
  - the contributions of equipped weapons and apparel and of running AID effects are grouped by effect name;
  - their positive totals are computed once expired AID effects are dropped;
  - the result is projected onto the 14-key stats record;
  - a separate clean-up drops expired contributions.
- **The Pip-Boy state** (`src/components/PipBoyCV.tsx`, `InvContent.tsx`, `DataContent.tsx`). The class
  `PipBoyCV.PipBoy` holds the inventory, the equip map, the running AID effects and the quests. It has one
  method per state updater:
  - the one-second tick;
  - AID consumption (replace, do not stack);
  - quest tracking;
  - item clicks (one weapon at a time, one apparel item per body part);
  - quest clicks (only a quest in progress can be tracked).
- **The STAT screen helpers** (`src/components/StatContent.tsx`): the live XP readout, the display names
  of effects, and the `m:ss` time left.
- **The icon lookups** (`src/components/Icon.tsx`):
  - the merged table `allIcons` and the category lists;
  - the folder and URL of an icon, and the `<img>` the component renders;
  - the sorted list of names and the names of one category.

The JavaScript built-ins the core relies on are modelled in `JsString`: `split`, `trim`,
`toLowerCase`, `includes`, `startsWith`, `parseInt`, `toString`, `padStart`, the two display-name
regular-expression replaces and the default string sort. `new Date(y, m, d)` is modelled in `Civil`
as proleptic Gregorian day arithmetic at UTC midnight.

The clock enters as parameters: `now`, in milliseconds since 1970-01-01, and `currentYear`, its
calendar year. Sounds, the CV download and timers are left out. A sound becomes a returned flag or value.

A backward period (end before start) is not rejected: `parsePeriod` throws only when the text does
not split into two parts. `Period.BackwardPeriod` shows such a period accepted, and
`Ranges.BackwardRangeRaisesTotal` shows that merging a backward range can then give a total larger
than the sum of the inputs. The merge's total bound is therefore proved for ranges that run forward.

Modules, in dependency order:

| module | contents |
|---|---|
| `Wrappers` | `Option`, `Result` |
| `JsString` | the JavaScript string built-ins |
| `Civil` | `new Date(y, m, d)`, `getTime`, `getFullYear` |
| `Types` | the records of `src/types/index.ts` |
| `Period` | `parsePeriod` and `parseDate` |
| `Ranges` | sorting, `mergeOverlappingRanges`, `calculateTotalExperience` |
| `Experience` | `calculateExperienceFromQuests` |
| `QuestLog` | the quest list and the experience it gives |
| `Effects` | the effects aggregator |
| `InvContent` | the item click handler and the equip updaters |
| `DataContent` | the quest click guard |
| `StatContent` | the STAT screen helpers |
| `IconTables` | the seven icon tables and their key tags |
| `Icons` | the icon lookups |
| `PipBoyCV` | the Pip-Boy state class |

## Model

| member | source | states |
|---|---|---|
| JsString.Trim | src/data/index.ts:18-19 | the trimmed text has no whitespace at either end |
| JsString.TrimInfix | src/data/index.ts:18-19 | the trimmed text is the infix after the leading whitespace; everything outside it is whitespace |
| JsString.TrimIdempotent | src/data/index.ts:18-19 | trimming twice is trimming once |
| JsString.SplitJoin | src/data/index.ts:12 | joining the pieces of a split with the same separator gives back the string |
| JsString.SplitWithoutSeparator | src/data/index.ts:12-16 | text without the separator splits into itself alone |
| JsString.SplitAround | src/data/index.ts:12 | two separator-free pieces joined by the separator split back into exactly those pieces |
| JsString.ParseIntOfNatToString | src/components/StatContent.tsx:391 | `parseInt` reads back what `toString` printed |
| JsString.ParseIntOfDigits | src/data/index.ts:36-38 | `parseInt` of a decimal digit string is the number it denotes |
| JsString.PadStart | src/components/StatContent.tsx:391 | the result is at least `len` long, ends with the input and is filled in front with the pad character |
| JsString.CapitalizeWords | src/components/StatContent.tsx:141 | a word character at a word boundary is upper-cased; every other character is kept |
| JsString.ReplaceChar | src/components/StatContent.tsx:141 | every occurrence of the character is replaced and the length is kept |
| JsString.SortStrings | src/components/Icon.tsx:453 | the sort is a permutation of its input |
| JsString.SortStringsSorted | src/components/Icon.tsx:453 | the sort output is in the default string order |
| JsString.StringLeIsCodeUnitOrder | src/components/Icon.tsx:453 | the default string order is the lexicographic order of the UTF-16 code units, surrogate pairs included |
| JsString.StringLeTotal | src/components/Icon.tsx:453 | the default string order is total |
| JsString.StringLeTransitive | src/components/Icon.tsx:453 | the default string order is transitive |
| JsString.StringLeAntisymmetric | src/components/Icon.tsx:453 | the default string order is antisymmetric |
| Civil.DayNumberInRange | src/data/index.ts:40 | for a month index in 0..11 the date is the days before the year, before the month, and the day minus one |
| Civil.JanuaryFirst | src/data/index.ts:111 | `new Date(y, 0, 1)` is the first instant of year `y` for every year outside 0..99 |
| Civil.YearLength | src/data/index.ts:122 | a year has 366 days exactly when it is a leap year, else 365 |
| Civil.InOneYear | src/data/index.ts:115-117 | an instant has one calendar year, so the year comparison is well defined |
| Period.ParsePeriod | src/data/index.ts:10-32 | fails exactly when splitting on " to " does not give two parts, naming the period; otherwise the start is `parseDate` of the trimmed first part split on "-", and the end is `now` when the trimmed second part lowercases to "present" and otherwise `parseDate` of it split on "-" |
| Period.ParseDate | src/data/index.ts:35-41 | the date is invalid when a part it reads is not a number, and only then (or when there are no parts) |
| Period.WellFormedPeriod | src/data/index.ts:18-31 | for two tokens around " to ", the end is `now` exactly when the second token lowercases to "present"; otherwise both sides go through `parseDate` |
| Period.MissingSeparator | src/data/index.ts:12-16 | text without " to " is malformed |
| Period.ThreeParts | src/data/index.ts:12-16 | text with two separators is malformed |
| Period.ParseDateOfNumbers | src/data/index.ts:35-41 | the month is read 1-based; a missing month is January and a missing day is the 1st |
| Period.YearsPeriod | src/data/index.ts:28-31 | "Y1 to Y2" runs from January 1 of Y1 to January 1 of Y2 |
| Period.MonthsPeriod | src/data/index.ts:28-31 | "Y1-M1 to Y2-M2" runs from the first of month M1 to the first of month M2 |
| Period.OngoingPeriod | src/data/index.ts:22-25 | "Y-M-D to Present", in any letter case, runs from that day to `now` |
| Period.CloudMigrationPeriod | src/data/index.ts:185 | "2022-06 to 2024-03" runs from June 1, 2022 to March 1, 2024 |
| Period.MobileOffensivePeriod | src/data/index.ts:169 | "2019 to 2021" runs from January 1, 2019 to January 1, 2021 |
| Period.AiIntegrationPeriod | src/data/index.ts:144 | "2024-01-15 to Present" runs from January 15, 2024 to now |
| Period.BootcampPeriod | src/data/index.ts:153 | "2017-06 to 2017-12" runs from June 1, 2017 to December 1, 2017 |
| Period.FreelancePeriod | src/data/index.ts:161 | "2018-03 to 2018-09" runs from March 1, 2018 to September 1, 2018 |
| Period.DashboardPeriod | src/data/index.ts:177 | "2021-04 to 2023-08" runs from April 1, 2021 to August 1, 2023 |
| Period.BackwardPeriod | src/data/index.ts:28-31 | a period that ends before it starts is accepted as it stands |
| Ranges.SortRanges | src/data/index.ts:48 | the in-place sort leaves the array holding the stable sort by start of its old contents |
| Ranges.InsertInPlace | src/data/index.ts:48 | one insertion step puts the next range into the sorted prefix and leaves the rest of the array alone |
| Ranges.SortByStartPermutes | src/data/index.ts:48 | the sort is a permutation |
| Ranges.SortByStartSorted | src/data/index.ts:48 | the sort output is in order of start |
| Ranges.SortByStartSortedNoop | src/data/index.ts:48 | ranges already in order of start are left as they are |
| Ranges.SortByStartCovers | src/data/index.ts:48 | sorting keeps the covered instants |
| Ranges.SortByStartTotal | src/data/index.ts:69-73 | sorting does not change the total |
| Ranges.MergeOverlappingRanges | src/data/index.ts:44-66 | sorts its argument in place and returns the merge of the sorted ranges; the empty list gives `[]` |
| Ranges.MergedSeparated | src/data/index.ts:51-63 | each merged range starts after the previous one ends, whatever the input |
| Ranges.MergedSorted | src/data/index.ts:51-63 | sorted input gives merged ranges in order of start |
| Ranges.MergedCovers | src/data/index.ts:56-61 | for sorted input, the merged ranges cover exactly the instants the inputs cover |
| Ranges.MergedStarts | src/data/index.ts:49-61 | every merged range starts where some input range starts |
| Ranges.MergedTotal | src/data/index.ts:56-73 | merging ranges that run forward never increases the total |
| Ranges.MergedForward | src/data/index.ts:56-58 | the merge of forward ranges runs forward |
| Ranges.MergedSeparatedNoop | src/data/index.ts:59-61 | ranges that neither overlap nor touch come out unchanged |
| Ranges.SeparatedTotalKept | src/data/index.ts:56-73 | for ranges already in order of start with no overlap or touching, the merged total equals the sum of the inputs |
| Ranges.ApartTotalKept | src/data/index.ts:44-73 | for forward ranges in any order, no two of which overlap or touch, the merged total equals the sum of the inputs |
| Ranges.SortApartSeparated | src/data/index.ts:48-61 | sorting forward ranges no two of which overlap or touch leaves each starting after the previous one ends, so the merge keeps them all |
| Ranges.SeparatedDisjoint | src/data/index.ts:51-63 | forward separated ranges are pairwise disjoint |
| Ranges.MergeIntoLast | src/data/index.ts:56-58 | a range starting inside the last merged range stretches it to the later end |
| Ranges.MergeOverlappingRangesSpec | src/data/index.ts:44-73 | the result is sorted, separated and covers the same instants; for forward input it runs forward with a total in `[0, sum of inputs]` |
| Ranges.TotalNonNegative | src/data/index.ts:69-73 | forward ranges add up to a non-negative total |
| Ranges.BackwardRangeRaisesTotal | src/data/index.ts:56-73 | with a backward range in the input, the merged total can exceed the sum of the inputs |
| Ranges.BackwardApartMerged | src/data/index.ts:48-73 | two ranges apart from each other, one of them backward, are merged once sorted, and the merged total differs from the sum |
| Experience.Entries | src/data/index.ts:82-83 | every quest is paired with its status and its parsed period, in list order |
| Experience.GatherQuests | src/data/index.ts:82-91 | the `forEach` loop computes what the specification function `Gather` describes |
| Experience.CalculateExperienceFromQuests | src/data/index.ts:76-135 | the method computes the function `ExperienceOf`, whose properties are the lemmas below |
| Experience.GatherFails | src/data/index.ts:82-83 | the loop throws exactly when some period does not parse, and it reports the first such period |
| Experience.GatherErrorSticks | src/data/index.ts:82-83 | once a period fails to parse, the later quests do not matter |
| Experience.QuestsFail | src/data/index.ts:82-83 | the only error path is a period that does not parse |
| Experience.QuestsFailFirst | src/data/index.ts:82-83 | the error names the first period that does not parse |
| Experience.GatherCompleted | src/data/index.ts:85-86 | the completed ranges are the periods of the COMPLETED quests, in list order |
| Experience.GatherInProgress | src/data/index.ts:87-89 | the quest in progress is the last IN PROGRESS quest in list order |
| Experience.OtherStatusIgnored | src/data/index.ts:82-91 | a quest of any other status does not change the result |
| Experience.ToRanges | src/data/index.ts:94-97 | the ranges exist exactly when every end point is a valid date, and they keep the order and the end points |
| Experience.YearRemainderMs | src/data/index.ts:122-123 | the fractional year lies within one year either side of 0, and for a non-negative total it is the remainder |
| Experience.LevelBounds | src/data/index.ts:129 | the level is the number of whole 365.25-day years, and it is non-negative for a non-negative total |
| Experience.StaticProgressBounds | src/data/index.ts:120-126 | without a quest in progress and with a non-negative total, progress lies in `[0, 31,536,000)` |
| Experience.StaticProgressWholeYears | src/data/index.ts:120-129 | a whole number of years shows no progress and that many levels |
| Experience.InProgressSecondsBounds | src/data/index.ts:109-119 | with a start no later than now, progress is under 366 days of seconds |
| Experience.LeapYearReachesDenominator | src/data/index.ts:119-130 | in a leap year the progress reaches the 365-day denominator on the last day |
| Experience.WellDatedGather | src/data/index.ts:82-91 | for well-dated quests the loop succeeds, every completed range runs forward, and the start in progress is not after now |
| Experience.WellDatedLevel | src/data/index.ts:129 | well-dated quests always give a result with a non-negative level |
| QuestLog.QuestsGather | src/data/index.ts:137-189 | the `forEach` over the application's quest list succeeds, collecting the five COMPLETED periods in list order with the first quest as the one in progress |
| QuestLog.CompletedAsRanges | src/data/index.ts:94-97 | every COMPLETED period of the list has two valid dates, so all five become ranges |
| QuestLog.CompletedQuestsMerge | src/data/index.ts:149-188 | the five COMPLETED periods merge into four ranges: the first three as they are and April 1, 2021 to March 1, 2024 |
| QuestLog.CompletedQuestsTotal | src/data/index.ts:69-73 | the merged COMPLETED periods add up to 2,163 days, which is level 5 |
| QuestLog.QuestsExperience | src/data/index.ts:192 | `calculateExperienceFromQuests(quests)` is what 2,163 completed days and the quest in progress from January 15, 2024 give |
| QuestLog.QuestsLevel | src/data/index.ts:192 | from January 15, 2024 on, the quest list gives a level of at least 5, and the progress counts from that start |
| Effects.AddLookup | src/utils/effectsCalculator.ts:12-20 | adding extends the list of that name by the contribution and leaves every other name's list alone |
| Effects.AddNames | src/utils/effectsCalculator.ts:12-20 | a new name goes after the existing ones; an existing name keeps its place |
| Effects.AddDistinct | src/utils/effectsCalculator.ts:12-20 | adding keeps the names distinct |
| Effects.AddCount | src/utils/effectsCalculator.ts:12-20 | each addition adds exactly one contribution |
| Effects.BuildLookup | src/utils/effectsCalculator.ts:12-20 | a name's list holds exactly the contributions pushed under it, in push order; an unpushed name is undefined |
| Effects.BuildCount | src/utils/effectsCalculator.ts:12-20 | every pushed contribution lands in exactly one list |
| Effects.AddEffects | src/utils/effectsCalculator.ts:26-36 | the inner loop adds the calls of the qualifying effects, in order |
| Effects.AddEquipped | src/utils/effectsCalculator.ts:23-56 | the weapons or apparel loop adds the calls of the equipped items, in index order |
| Effects.AddTemporary | src/utils/effectsCalculator.ts:59-75 | the temporary-effects loop adds its calls, in list order |
| Effects.CalculateAllEffects | src/utils/effectsCalculator.ts:4-78 | the method computes the map of all calls: weapons, then apparel, then temporary effects |
| Effects.AllEffectsLookup | src/utils/effectsCalculator.ts:16-75 | a name's list holds the weapon contributions by index, then apparel, then temporary ones; a name nothing contributes to is absent |
| Effects.AllEffectsCount | src/utils/effectsCalculator.ts:23-75 | there is one contribution per qualifying effect and no name occurs twice |
| Effects.EffectPushesFrom | src/utils/effectsCalculator.ts:26-36 | every contribution comes from a qualifying effect of the list, with its name and value |
| Effects.EquippedPushesFrom | src/utils/effectsCalculator.ts:23-56 | only an item whose key is on contributes, not temporary, with its own name, the tab's type and a qualifying effect |
| Effects.TemporaryPushesFrom | src/utils/effectsCalculator.ts:59-75 | an AID contribution is temporary and expires `duration` seconds after now |
| Effects.NothingEquipped | src/utils/effectsCalculator.ts:23-56 | with no key on, the tab contributes nothing |
| Effects.ActiveOfMembers | src/utils/effectsCalculator.ts:86-91 | the filter keeps exactly the active contributions |
| Effects.PermanentActive | src/utils/effectsCalculator.ts:86-91 | a non-temporary contribution, or one without a truthy expiry, is always kept |
| Effects.ActiveOfIdempotent | src/utils/effectsCalculator.ts:86-91 | filtering twice at the same instant is filtering once |
| Effects.ProcessedEffects | src/utils/effectsCalculator.ts:81-102 | `getProcessedEffects`, entry by entry; `ProcessedPositive` and `ProcessedLookup` state what it reports |
| Effects.ProcessedPositive | src/utils/effectsCalculator.ts:94-101 | no processed effect has a total of 0 or less, and each total is the sum of the contributions it lists |
| Effects.ProcessedLookup | src/utils/effectsCalculator.ts:81-102 | a name is processed exactly when its active contributions sum to more than 0, and then it carries that sum and those contributions |
| Effects.NamedAbsent | src/utils/effectsCalculator.ts:81-102 | a name without a list is not processed |
| Effects.CleanupExpiredEffects | src/utils/effectsCalculator.ts:148-166 | the loop stores each name's non-empty active list, in order |
| Effects.CleanupIdempotent | src/utils/effectsCalculator.ts:148-166 | cleaning up twice at the same instant is cleaning up once |
| Effects.ProcessedAfterCleanup | src/utils/effectsCalculator.ts:148-166 | cleaning up first does not change what `getProcessedEffects` reports |
| Effects.CleanupKeepsNonPositive | src/utils/effectsCalculator.ts:160-162 | unlike `getProcessedEffects`, the clean-up keeps a name whose active sum is not positive |
| Effects.InitialStats | src/utils/effectsCalculator.ts:121-136 | the record starts with exactly the 14 stat keys, each 0 |
| Effects.GetLegacyStats | src/utils/effectsCalculator.ts:105-145 | the loop computes the record the specification function describes |
| Effects.LegacyStatsKeys | src/utils/effectsCalculator.ts:121-142 | the record always has exactly the 14 stat keys |
| Effects.LegacyStatsUnnamed | src/utils/effectsCalculator.ts:121-142 | a stat no effect names stays 0 |
| Effects.LegacyStatsLast | src/utils/effectsCalculator.ts:138-142 | a stat holds the total of the last effect with its name |
| Effects.UnknownNameIgnored | src/utils/effectsCalculator.ts:139 | an effect whose name is not a stat changes nothing |
| InvContent.IsEquipped | src/components/InvContent.tsx:144-147 | a row is equipped when its `TAB-index` key is on, absent counting as off; `OnlyWeaponMarked` states it after an equip |
| InvContent.HandleItemClick | src/components/InvContent.tsx:66-139 | the click handler's sound, forwarded AID item and new equip state; `AidClickForwards`, `OtherTabsKeepEquipped` and `EquipClick` state its branches |
| InvContent.ItemKeySplit | src/components/InvContent.tsx:121 | splitting a key on "-" gives its tab name and its index |
| InvContent.ItemKeyInjective | src/components/InvContent.tsx:82 | different rows of a tab have different keys |
| InvContent.UpdateWeapons | src/components/InvContent.tsx:94-110 | the key-by-key loop computes the weapon updater's result |
| InvContent.WeaponClickToggles | src/components/InvContent.tsx:108 | the clicked weapon key ends as the negation of what it was, absent counting as false |
| InvContent.WeaponEquipExclusive | src/components/InvContent.tsx:98-108 | equipping a weapon makes it the only weapon key that is on |
| InvContent.WeaponUnequip | src/components/InvContent.tsx:98-108 | clicking an equipped weapon turns off its own key and nothing else |
| InvContent.WeaponClickIsolated | src/components/InvContent.tsx:100-106 | a weapon click changes no key outside `WEAPONS-` |
| InvContent.ApparelAtKey | src/components/InvContent.tsx:121-122 | the key of an apparel row looks up that row |
| InvContent.UpdateApparel | src/components/InvContent.tsx:113-133 | the key-by-key loop computes the apparel updater's result |
| InvContent.ApparelClickToggles | src/components/InvContent.tsx:131 | the clicked apparel key ends as the negation of what it was |
| InvContent.ApparelClickIsolated | src/components/InvContent.tsx:119-131 | an apparel click changes no key outside `APPAREL-` |
| InvContent.ApparelEquipClears | src/components/InvContent.tsx:117-128 | putting on an item with a body part leaves no other equipped apparel on that body part, keeps every non-conflicting key on, and turns nothing else on |
| InvContent.ApparelNoConflict | src/components/InvContent.tsx:117-131 | taking an item off, or putting on one without a body part, changes only its own key |
| InvContent.WeaponClickPreserves | src/components/InvContent.tsx:92-110 | a weapon click keeps at most one weapon on and at most one apparel item per body part |
| InvContent.ApparelClickPreserves | src/components/InvContent.tsx:111-133 | an apparel click keeps at most one weapon on and at most one apparel item per body part |
| InvContent.AidClickForwards | src/components/InvContent.tsx:74-78 | on the AID tab an item in stock is forwarded with its index, and the equip state stays |
| InvContent.OtherTabsKeepEquipped | src/components/InvContent.tsx:74-138 | outside weapons and apparel a click keeps the equip state and plays the select sound |
| InvContent.EquipClick | src/components/InvContent.tsx:81-134 | a weapon or apparel click toggles its row, with the sound telling which way, and keeps the state well formed |
| InvContent.OnlyWeaponMarked | src/components/InvContent.tsx:145-148 | after a weapon is equipped, no other weapon row shows the marker |
| InvContent.RowsShowTheirItems | src/components/InvContent.tsx:150-169 | there is one row per item in stock, and each row's index points at its own item in the unfiltered tab |
| InvContent.RowsInOrder | src/components/InvContent.tsx:151-169 | the row indices rise strictly, so the rows keep the tab's order |
| InvContent.RowsComplete | src/components/InvContent.tsx:151 | every item in stock has a row |
| DataContent.HandleQuestClick | src/components/DataContent.tsx:13-24 | the click handler's decision; `QuestClickGuard` states both directions of its guard |
| DataContent.QuestClickGuard | src/components/DataContent.tsx:13-24 | a click is ignored exactly when the quest is not in progress; otherwise it toggles that quest and announces the negation of its flag |
| StatContent.CalculateCurrentXp | src/components/StatContent.tsx:43-86 | the live XP readout; `XpWithoutQuest`, `FirstQuestUsed`, `FallbackFromJanuary`, `InvalidStartFromJanuary`, `AgreesWithDataModule` and `ElapsedBounds` state what it shows |
| StatContent.FirstInProgressFound | src/components/StatContent.tsx:44 | `find` returns the first quest in progress |
| StatContent.FirstInProgressNone | src/components/StatContent.tsx:44-48 | `find` finds nothing exactly when no quest is in progress |
| StatContent.XpWithoutQuest | src/components/StatContent.tsx:44-81 | the readout is the stored XP exactly when no quest is in progress; otherwise the denominator is 31,536,000 |
| StatContent.FirstQuestUsed | src/components/StatContent.tsx:43-86 | the readout follows the first quest in progress in list order |
| StatContent.FallbackFromJanuary | src/components/StatContent.tsx:64-67 | a period that does not mention "present" counts from January 1 of the current year |
| StatContent.InvalidStartFromJanuary | src/components/StatContent.tsx:70-76 | a start that does not parse counts from January 1 of the current year |
| StatContent.AgreesWithDataModule | src/components/StatContent.tsx:70-78 | for a valid start the seconds are those the data module reports as progress |
| StatContent.ElapsedBounds | src/components/StatContent.tsx:70-79 | the seconds lie in `[0, 366 days)` for a start in the current year that is not in the future |
| StatContent.EffectDisplayName | src/components/StatContent.tsx:125-141 | the table's entry, else the spaced and capitalised name; `TableExamples`, `FallbackShape` and `DeepWorkExample` state both branches |
| StatContent.TableNamesTheStats | src/components/StatContent.tsx:125-140 | the display-name table names exactly the 14 stats of the record |
| StatContent.TableExamples | src/components/StatContent.tsx:125-141 | `hp` is shown as "Health Points" and `bug_fix_success` as "Bug Fix Success" |
| StatContent.FallbackShape | src/components/StatContent.tsx:141 | a name outside the table keeps its length, loses every underscore, and has each word's first letter upper-cased |
| StatContent.DeepWorkExample | src/components/StatContent.tsx:141 | `deep_work` is shown as "Deep Work" |
| StatContent.TimeLeft | src/components/StatContent.tsx:391 | the `m:ss` text; `TimeLeftReadsBack` states that it reads back as the duration |
| StatContent.SecondsField | src/components/StatContent.tsx:391 | the seconds field is two digits that read back as the seconds |
| StatContent.TimeLeftReadsBack | src/components/StatContent.tsx:391 | the text is minutes, a colon and a seconds field in 00..59, and it reads back as the duration |
| StatContent.TimeLeftExample | src/components/StatContent.tsx:391 | 125 seconds are shown as `2:05` |
| IconTables.Fallout4IconsSeparated | src/components/Icon.tsx:9-369 | every key of each of the seven tables carries that table's tag, so no key is in two tables, and every file name is non-empty |
| Icons.GetLast | src/components/Icon.tsx:372-380 | a property is defined exactly when some entry has its name, and it holds the file of the last such entry |
| Icons.GetSpread | src/components/Icon.tsx:372-380 | in `{ ...a, ...b }` a name of `b` reads from `b` and any other name from `a` |
| Icons.GetAllIcons | src/components/Icon.tsx:372-380 | the merged table reads a name from the last table that defines it |
| Icons.ObjectKeysMembers | src/components/Icon.tsx:383-391 | `Object.keys` lists exactly the names of the entries, each once |
| Icons.GetListed | src/components/Icon.tsx:383-391 | a name is defined in a table exactly when its category list has it |
| Icons.CategoriesDisjoint | src/components/Icon.tsx:383-391 | in a separated set no name is in two category lists |
| Icons.UntaggedUnknown | src/components/Icon.tsx:383-391 | a name without a table's tag is in no category list |
| Icons.AllIconsReadsTable | src/components/Icon.tsx:372-380 | in a separated set the merged table reads every name of a table from that table, and the file is non-empty |
| Icons.AllIconsMissing | src/components/Icon.tsx:372-380 | a name of no table is undefined in the merged table |
| Icons.GetIconFolder | src/components/Icon.tsx:394-403 | the folder of the first table listing the name, else `FO4MapMarkers`; `FolderLookup` states both cases |
| Icons.FolderLookup | src/components/Icon.tsx:394-403 | in a separated set every name of a table resolves to that table's folder, and a name of no table to `FO4MapMarkers` |
| Icons.GetIconUrl | src/components/Icon.tsx:468-478 | the icon's URL or the fallback; `IconUrlKnown` and `IconUrlUnknown` state both cases |
| Icons.IconUrlKnown | src/components/Icon.tsx:476-477 | a name of a table gets the base, `icons/`, its own table's folder and its own file |
| Icons.IconUrlUnknown | src/components/Icon.tsx:469-474 | a name of no table gets the fallback `/fallout_cv_app/icons/FO4MapMarkers/icon_94.svg` |
| Icons.QuestMainFallback | src/components/Icon.tsx:468-478 | `quest-main`, which the map requests, is in no table of the application and gets the fallback icon |
| Icons.IconElement | src/components/Icon.tsx:416-449 | the `<img>` the component renders, or nothing; `IconRendersKnownNames` states when and with what |
| Icons.IconRendersKnownNames | src/components/Icon.tsx:424-443 | the component renders an image exactly for the names of the tables, with the URL `getIconUrl` gives and the given text or the name followed by " icon" |
| Icons.GetAvailableIcons | src/components/Icon.tsx:452-454 | the sorted names of the merged table; `AvailableIconsSorted` states it |
| Icons.AvailableIconsSorted | src/components/Icon.tsx:452-454 | the list is sorted and holds every defined name of the merged table exactly once |
| Icons.IconsByCategory | src/components/Icon.tsx:457-459 | each of the seven keys gives its category's names, and any other string gives `[]` |
| Icons.GetIconsByCategory | src/components/Icon.tsx:457-459 | the category list under a key, else `[]`; `IconsByCategory` and `CategoriesShareAvailable` state it |
| Icons.ByCategoryKey | src/components/Icon.tsx:457-459 | the key of a category looks up that category's list |
| Icons.CategoriesShareAvailable | src/components/Icon.tsx:452-459 | in a separated set a name is available exactly when some category lists it, and a category that lists it resolves it to that category's folder |
| PipBoyCV.DecrementedPointwise | src/components/PipBoyCV.tsx:53-56 | each effect is decremented where it stands |
| PipBoyCV.TickAges | src/components/PipBoyCV.tsx:53-70 | the survivors are, in their old order, exactly the effects with more than one second left, each one second shorter and otherwise unchanged |
| PipBoyCV.AgedPointwise | src/components/PipBoyCV.tsx:53-56 | aging lowers each duration by exactly one and keeps every other field |
| PipBoyCV.NoZeroSurvives | src/components/PipBoyCV.tsx:70 | no effect with no time left survives a tick |
| PipBoyCV.ExpiredExactly | src/components/PipBoyCV.tsx:59-62 | the effects reported as just expired are exactly those that had one second left |
| PipBoyCV.LongerMembers | src/components/PipBoyCV.tsx:70 | an effect survives exactly when it had more than one second left |
| PipBoyCV.LastSecondMembers | src/components/PipBoyCV.tsx:59-62 | an effect is reported as expired exactly when it had one second left |
| PipBoyCV.TickCount | src/components/PipBoyCV.tsx:59-70 | no effect both survives and is reported; with positive durations every effect does one or the other |
| PipBoyCV.TickUnique | src/components/PipBoyCV.tsx:50-78 | the tick keeps item names unique |
| PipBoyCV.UsedOneOnly | src/components/PipBoyCV.tsx:113-120 | only the consumed row's quantity changes, down by one and never below 0 |
| PipBoyCV.WithoutItemMembers | src/components/PipBoyCV.tsx:97-99 | the filter keeps exactly the effects of other items |
| PipBoyCV.WithoutItemCount | src/components/PipBoyCV.tsx:97-99 | the filter removes all of the item's effects and keeps the counts of the others |
| PipBoyCV.ConsumeReplaces | src/components/PipBoyCV.tsx:96-110 | afterwards the item has at most one effect, appended last with both durations set to the item's exactly when `effects` and `duration` are truthy; the other effects keep their order |
| PipBoyCV.ConsumeUnique | src/components/PipBoyCV.tsx:96-110 | consumption keeps item names unique |
| PipBoyCV.ToggleFlips | src/components/PipBoyCV.tsx:82-88 | only the chosen quest changes, and only its tracked flag, which flips |
| PipBoyCV.ToggleTwice | src/components/PipBoyCV.tsx:82-88 | toggling twice restores every flag, and the list itself when the flag was present or the index is outside the list |
| PipBoyCV.QuestSoundMatches | src/components/DataContent.tsx:21-23 | the flag the quest sound announces is the flag the toggle sets |
| PipBoyCV.InitialTracking | src/components/DataContent.tsx:17-23 | a quest list with no `tracked` field has only quests in progress tracked |
| PipBoyCV.PipBoy.constructor | src/components/PipBoyCV.tsx:50-123 | the initial state holds the given inventory and quests, nothing equipped and no effect running, and is well formed |
| PipBoyCV.PipBoy.Tick | src/components/PipBoyCV.tsx:50-78 | the effects become the tick's survivors; the expired ones are reported and the wear-off sound plays exactly when there is one; nothing else changes |
| PipBoyCV.PipBoy.ToggleQuest | src/components/PipBoyCV.tsx:81-89 | the quests are replaced by the toggled list and nothing else changes |
| PipBoyCV.PipBoy.ConsumeAid | src/components/PipBoyCV.tsx:92-123 | a missing item or one out of stock changes nothing; otherwise the running effect is replaced, the quantity drops and the confirm sound plays |
| PipBoyCV.PipBoy.ClickItem | src/components/InvContent.tsx:66-139 | an item click plays the handler's sound and installs its equip state; a click that forwards nothing leaves effects and inventory alone and plays no confirm sound; a forwarded AID item replaces its running effect, loses one from its quantity and plays the confirm sound; the equip invariants hold |
| PipBoyCV.PipBoy.ClickQuest | src/components/DataContent.tsx:13-24 | a quest click toggles only a quest in progress, and only quests in progress stay tracked |

## Left out

- Wall clock: `Date.now()` and `new Date()` are the parameters `now` and `currentYear`. Time zones are not modelled: `new Date(y, m, d)` is taken at UTC midnight.
- Floating point: the division by 365.25 days and `% 1` are exact integer arithmetic. They agree with JavaScript wherever the doubles are exact. The XP bar percentage is not modelled.
- NaN: an unreadable number (`parseInt` giving NaN) is an invalid date, `None`. A COMPLETED or IN PROGRESS quest with an invalid date gives the error `InvalidDate` instead of a NaN level.
- `toLocaleString` digit grouping is not modelled: the XP readout returns its two numbers.
- Timers, the random glitch effect, React batching and sounds are not modelled. An updater is one sequential transition, and a sound is a returned flag or value.
- The CV download (Blob, DOM) and the `localStorage` notice flag are left out: browser APIs with no logic to model.
- `searchIcons` and src/components/IconDemo.tsx are not part of this model: the search uses a regular expression.
- The `size`, `style`, `className` and `onClick` of the `Icon` component are layout, not logic.
- Ranges.MergeOverlappingRanges: `lastMerged.end = …` mutates a range object that the input array shares. The model builds new ranges, so that aliasing is not captured.
- Ranges.MergedTotal: stated only for ranges that run forward, because a backward range can make the merged total exceed the sum.
- Ranges.ApartTotalKept: stated only for ranges that run forward, because a backward range apart from another can still be merged into it once the two are sorted (`Ranges.BackwardApartMerged`).
- Civil.JanuaryFirst: the years 0..99 that the `Date` constructor reads as 1900..1999 are excluded from the bounds that depend on January 1.
- Experience.InProgressSecondsBounds: excludes a clock in the years 0..99, for the same reason.
- Experience.CalculateExperienceFromQuests: `xpDisplay` is not modelled, because it is the `toLocaleString` text of the two numbers.
- Object lookups consider own keys only. Inherited properties such as `toString` are not modelled, and neither is the `in` of `getLegacyStats` for such a name.
- Integer-like property keys are not modelled: effect names and icon names are plain identifiers, so keys keep insertion order.
- Effects.CleanupExpiredEffects: storing `cleanedMap[effectName]` is modelled as appending, because the names of the map are distinct.
- InvContent.UpdateWeapons and InvContent.UpdateApparel: `Object.keys(prev)` order is any order. Each key is written independently, so the result does not depend on it.
- PipBoyCV.PipBoy.ClickItem: the equip updater reads the state at the time of the click, not a queued React state.
- PipBoyCV.ToggleTwice: `!quest.tracked` turns an absent flag into `true`, then `false`, so two toggles restore the list only up to absent ≡ false.
- InvContent.RowsShowTheirItems: `findIndex` by object identity is modelled as the row's position in the unfiltered tab.
- PipBoyCV.PipBoy.ConsumeAid: the two `setTemporaryEffects` calls are modelled as one combined update. React applies them in order, so the combined result is the same.
- Icons: the lookups take the tables as a parameter. `IconTables.Fallout4Icons` holds the application's tables, and `IconTables.Fallout4IconsSeparated` proves they are separated. For a concrete known icon, the URL is derived from `Icons.IconUrlKnown` and not computed.
- StatContent.CalculateCurrentXp: the `try`/`catch` is not modelled, because nothing in the modelled body throws.
- Civil.EpochMs: the time clip of `Date` is not modelled. JavaScript turns an instant beyond ±8.64e15 ms (a year beyond ±275,760) into an Invalid Date; the model keeps the exact day count.
- Period.ParseDate: `parseInt` returns a double, which loses precision above 2^53. The model reads the digits as an exact integer; the two agree for every year, month and day below that bound.
- JsString.StringLe: a Dafny `char` is a Unicode scalar value, so strings holding a lone surrogate are not modelled. For every other string `JsString.StringLeIsCodeUnitOrder` proves the order is the UTF-16 code-unit order of `sort()`.
- JsString.Lower: `toLowerCase` is modelled for the ASCII letters only. The periods of the application are ASCII.
