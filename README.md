# Default-value tracker of SpondyLog, in Dafny

This project models `defaultValues.js`, the default-level tracker of SpondyLog.
The tracker is a small state machine over a record the caller owns. For each
metric (`pain`, `stiffness`) the record holds three things:

- a series mapping a day identifier to a level;
- skip flags per day (`defaultSkipDates`);
- three settings maps: `defaultLevels`, `defaultStartDates` and `defaultTimeZones`.

The record changes through four operations:

- `saveDefault` activates a default level or deactivates it. On activation it
  fills today's entry at once.
- `dailyMaterialization` is the catch-up pass over `pain` and `stiffness`. It
  writes each due default into an empty, non-skipped today.
- `resetDay` clears one day for a list of metrics and flags that day as skipped.
- `saveManual` stores a positive value, or clears the day.

Day identifiers come from `getTodayId`. It turns an instant, in a time zone,
into the unpadded string `Y-M-D`.

The project has these files:

- `day_ids.dfy` (module `DayIds`) covers day identifiers.
  - The time-zone conversion is a `Calendar` function that the caller passes in.
  - The unpadded `Y-M-D` formatting is modelled exactly, with a parser that
    inverts it.
  - `LexLe` is JavaScript's string `<=`.
- `tracker.dfy` (module `Tracker`) holds the record as the value `Snapshot`.
  Each operation is a function from the record before the call to the record
  after it. Its contract states what the call writes and what it leaves alone.
- `tracker_properties.dfy` (module `TrackerProperties`) holds lemmas that relate
  several calls, and the invariants every operation keeps.
- `default_values.dfy` (module `DefaultValues`) holds the class `State`. Its
  fields are the record's maps, and its methods update them in place as the
  JavaScript does. The two `forEach` loops are `while` loops; their bodies are
  the methods `MaterializeOne` and `ResetOne`. Every method ends in exactly the
  `Snapshot` the matching `Tracker` function computes. Every operation method
  (`SaveDefault`, `DailyMaterialization`, `ResetDay` and `SaveManual`) also
  keeps `Valid()`, the invariant `Tracker.Consistent`.
- `scenarios.dfy` (module `Scenarios`) replays the test scenarios S1 to S9 of
  `tests/defaultValues.test.js` against `State`.
  - Each scenario is a method whose postcondition is the test's assertion.
  - Where a test depends on real time-zone data, the method requires what the
    calendar returns for those instants.

### The start-date check is not chronological

Day identifiers are unpadded (`defaultValues.js:11`). `dailyMaterialization`
tests `start <= today` as a plain string comparison (`defaultValues.js:41`),
and on unpadded identifiers that comparison does not follow the calendar.

The model keeps the comparison as written: `Due` uses `LexLe`. The lemma
`DayIds.UnpaddedIdsAreNotChronological` proves that the two orders differ:

- 30 September 2023 is before 1 October 2023;
- but `"2023-9-30" <= "2023-10-1"` is false.

So a default activated on 2023-9-30 is not due on 2023-10-1. The same happens
more widely:

- A default started in February to September is not due on any day of
  October to December of that year, because '1' sorts before '2' to '9'.
- A default started on day 3 to 9 of a month is not due on days 10 to 29 of
  that month. For example, `"2023-8-3" <= "2023-8-20"` is false.

Nothing in the model claims that `LexLe` is chronological.

## Model

| member | source | states |
|---|---|---|
| DayIds.DayIdShape | defaultValues.js:3-12 | Every identifier `getTodayId` returns is three unpadded numerals joined by '-', and it parses back to the calendar day of that instant in that zone. |
| DayIds.DayId | defaultValues.js:3-12 | No contract of its own: `getTodayId` is the `Calendar`'s day printed by `FormatDayId`. Its shape and round trip are `DayIdShape`. |
| DayIds.FormatDayId | defaultValues.js:11 | No contract of its own: the template string joining three unpadded numerals by '-'. Its properties are `ParseFormatDayId`, `FormatParseDayId` and `FormatDayIdInjective`. |
| DayIds.Decimal | defaultValues.js:11 | The numeral of a number has digits only and no leading zero; it starts with '0' exactly when the number is 0. |
| DayIds.DecimalValueOfDecimal | defaultValues.js:11 | Reading the printed numeral of `n` gives `n` back. |
| DayIds.DecimalOfDecimalValue | defaultValues.js:11 | Every unpadded numeral is the printed form of its value. |
| DayIds.ParseFormatDayId | defaultValues.js:11 | Parsing an identifier built from a day returns that day. |
| DayIds.FormatParseDayId | defaultValues.js:11 | Every well-formed identifier is exactly the string its parsed day prints as. |
| DayIds.FormatDayIdInjective | defaultValues.js:11 | Different days never get the same identifier. |
| DayIds.LexLe | defaultValues.js:41 | No contract of its own: JavaScript's string `<=`, where the first differing character decides and a proper prefix comes first. Its order laws are `LexLeReflexive`, `LexLeTotal`, `LexLeAntisymmetric` and `LexLeTransitive`, plus `LexLeCommonPrefix` and `UnpaddedIdsAreNotChronological`. |
| DayIds.LexLeReflexive | defaultValues.js:41 | The string `<=` holds between a string and itself. |
| DayIds.LexLeTotal | defaultValues.js:41 | For any two strings, one is `<=` the other. |
| DayIds.LexLeAntisymmetric | defaultValues.js:41 | When `a <= b` and `b <= a`, the strings are equal. |
| DayIds.LexLeTransitive | defaultValues.js:41 | The string `<=` is transitive. |
| DayIds.LexLeCommonPrefix | defaultValues.js:41 | A shared prefix does not affect the comparison; the remainders decide. |
| DayIds.UnpaddedIdsAreNotChronological | defaultValues.js:41 | 2023-09-30 is chronologically before 2023-10-01, yet its identifier is not `<=` the later one. |
| Tracker.Initial | tests/defaultValues.test.js:6-17 | The test record is consistent. Its `pain` and `stiffness` series are empty, no metric has an active default, and no metric is flagged on any day. |
| Tracker.Empty | defaultValues.js:23 | No contract of its own: the test that `cur` is undefined, null or 0, as lines 23 and 45 make it, with `null` folded into 0. It is used in the contracts of `Tracker.SaveDefault` and `Tracker.MaterializeOver`. |
| Tracker.Skipped | defaultValues.js:44 | No contract of its own: `state.defaultSkipDates[metric] && state.defaultSkipDates[metric][todayId]`. Its behaviour under `resetDay` is `Tracker.ResetDayFlags`. |
| Tracker.Due | defaultValues.js:41 | No contract of its own: `level > 0 && start && start <= today` with `LexLe`. In a consistent record it reduces as `TrackerProperties.DueInConsistentRecord` states. |
| Tracker.Fills | defaultValues.js:41-45 | No contract of its own: `Due`, together with an empty entry for today and no skip flag. It is the write condition in the contracts of `Tracker.MaterializeOver` and `TrackerProperties.DailyMaterializationWritesNarrowly`. |
| Tracker.MaterializeMetric | defaultValues.js:39-47 | No contract of its own: one callback of the pass, which writes the level into today exactly when `Fills` holds. `Tracker.MaterializeOverSnoc` ties it to the closed form `Tracker.MaterializeOver`. |
| Tracker.DailyMaterialization | defaultValues.js:35-50 | No contract of its own: the pass `Tracker.MaterializeOver` over `Tracked`. Its properties are `TrackerProperties.DailyMaterializationWritesNarrowly`, `DailyMaterializationIdempotent` and `DailyMaterializationKeepsConsistent`. |
| Tracker.ResetMetric | defaultValues.js:54-57 | No contract of its own: one callback of `resetDay`. Its flags are `Tracker.ResetMetricFlags`, and `Tracker.ResetDaySnoc` ties it to the closed form `Tracker.ResetDay`. |
| Tracker.SaveDefault | defaultValues.js:14-33 | The level becomes `value`. For `value > 0`: start = today and zone = tz, an absent or zero today becomes `value`, and a non-zero today is kept, whatever the skip flags say. For `value <= 0`: start and zone become null, and today is deleted exactly when it was `===` the previous level. In both cases skip flags, other days and other metrics are unchanged. |
| Tracker.MaterializeOver | defaultValues.js:35-50 | After the pass over `metrics`, metric `m`'s entry for today equals its level exactly when `m` is listed and `Fills` held before the pass: level > 0, start non-null, non-empty and `<=` today, not skipped, today empty. Every other entry, the settings and the skip flags are unchanged. |
| Tracker.MaterializeOverSnoc | defaultValues.js:38-49 | A pass over `metrics + [metric]` is the pass over `metrics` followed by one `forEach` callback for `metric`. |
| Tracker.ResetDay | defaultValues.js:52-59 | Every listed metric loses its `dateId` entry. No other entry changes, and the settings do not change. |
| Tracker.ResetDaySnoc | defaultValues.js:53-58 | A reset of `metrics + [metric]` is the reset of `metrics` followed by one `forEach` callback for `metric`. |
| Tracker.ResetMetricFlags | defaultValues.js:56-57 | One callback creates the metric's skip map if missing, sets `dateId` to true, and changes no other flag. |
| Tracker.ResetDayFlags | defaultValues.js:52-59 | After `resetDay`, a metric has a skip map exactly when it had one or is listed. Its flag for a day is `true` when the metric is listed and the day is `dateId`; otherwise the flag is what it was. |
| Tracker.SaveManual | defaultValues.js:61-67 | The `dateId` entry becomes `value` when `value > 0` and is absent otherwise. Every other entry, the skip flags and the settings are unchanged. |
| TrackerProperties.SettingsUnchanged | defaultValues.js:35-67 | An operation that leaves the settings maps alone keeps the invariants about them. |
| TrackerProperties.SaveDefaultKeepsConsistent | defaultValues.js:14-33 | `saveDefault` keeps stored values positive, keeps "start non-null iff level > 0", does the same for the zone, and keeps start dates well-formed. |
| TrackerProperties.DailyMaterializationKeepsConsistent | defaultValues.js:41-46 | The catch-up pass keeps the record consistent, because it writes only positive levels. |
| TrackerProperties.ResetDayKeepsConsistent | defaultValues.js:52-59 | `resetDay` keeps the record consistent. |
| TrackerProperties.SaveManualKeepsConsistent | defaultValues.js:62-66 | `saveManual` keeps the record consistent: it stores only positive values and deletes the rest. |
| TrackerProperties.DueInConsistentRecord | defaultValues.js:41 | In a consistent record, the `start &&` guard never fails for an active default: only the level and the string comparison decide. |
| TrackerProperties.DailyMaterializationWritesNarrowly | defaultValues.js:35-50 | The catch-up pass changes only today's entry of `pain` and `stiffness`. It writes only when `Fills` held, and then writes the level. It never changes a non-empty entry, and every metric that `Fills` ends with its level. Settings and skip flags are unchanged. |
| TrackerProperties.MaterializeOverSettles | defaultValues.js:41-47 | After a pass, no listed metric is left that a second pass would fill. |
| TrackerProperties.MaterializeOverIdempotent | defaultValues.js:41-47 | Running the pass twice for the same day gives the same record as running it once. |
| TrackerProperties.DailyMaterializationIdempotent | defaultValues.js:35-50 | `dailyMaterialization` run twice with the same day equals running it once. |
| TrackerProperties.MaterializeOverIgnoresZones | defaultValues.js:36-41 | The stored time zones are never read by the pass: replacing them changes nothing else in the result. |
| TrackerProperties.MaterializeOverIgnoresZonesAt | defaultValues.js:39-46 | One metric's entry after the pass does not depend on the stored time zones. |
| TrackerProperties.ResetSuppressesCatchUp | defaultValues.js:44-45 | After `resetDay(dateId, metrics)`, no catch-up pass for `dateId` writes a listed metric's entry. |
| TrackerProperties.ResetIsPerDay | defaultValues.js:56-57 | A reset affects only its own day: on any other day, whether the pass fills a metric is unchanged. |
| TrackerProperties.SaveDefaultOverridesReset | defaultValues.js:18-25 | A positive `saveDefault` fills an empty, skipped today, and the skip flag stays set. |
| TrackerProperties.ManualEntryOverridesDefault | defaultValues.js:62-63 | A positive manual entry survives every later catch-up pass for its day. |
| TrackerProperties.ManualClearDoesNotSkip | defaultValues.js:64-65 | A manual zero does not flag the day, so the next pass fills it exactly when the default is due and the day was not reset. |
| TrackerProperties.ActivateThenDeactivate | defaultValues.js:14-33 | Activating, then deactivating on the same day, removes the value the activation wrote and keeps a different value that was already there. The default ends inactive, with no start date and no zone. |
| DefaultValues.State.constructor | tests/defaultValues.test.js:6-17 | The new record is `Tracker.Initial()` and satisfies `Valid()`. |
| DefaultValues.State.SaveDefault | defaultValues.js:14-33 | The fields end as `Tracker.SaveDefault` of the old record and `getTodayId(tz, now)`, and `Valid()` is kept. |
| DefaultValues.State.DailyMaterialization | defaultValues.js:35-50 | The loop over `pain` and `stiffness` leaves `Tracker.DailyMaterialization` of the old record, and `Valid()` is kept. |
| DefaultValues.State.MaterializeOne | defaultValues.js:38-48 | One callback of the pass: it writes the level into today exactly when `Fills` holds. |
| DefaultValues.State.ResetDay | defaultValues.js:52-59 | The loop over `metrics` leaves `Tracker.ResetDay` of the old record, and `Valid()` is kept. |
| DefaultValues.State.ResetOne | defaultValues.js:53-58 | One callback of `resetDay`: it deletes the entry, creates the skip map if missing, and sets the flag. |
| DefaultValues.State.SaveManual | defaultValues.js:61-67 | The fields end as `Tracker.SaveManual` of the old record, and `Valid()` is kept. |
| Scenarios.SaveDefaultFillsToday | tests/defaultValues.test.js:19-26 | S1: a positive default fills an empty today with 1. |
| Scenarios.ResetBlocksCatchUp | tests/defaultValues.test.js:28-37 | S2: after a reset, the catch-up pass leaves the day undefined. |
| Scenarios.ExplicitSaveRefillsResetDay | tests/defaultValues.test.js:39-49 | S3: a second `saveDefault` refills the reset day with 1. |
| Scenarios.CatchUpNextDay | tests/defaultValues.test.js:51-60 | S4: the catch-up pass on the next day writes 1. |
| Scenarios.NoBackfill | tests/defaultValues.test.js:62-78 | S5: the reset day 15 stays undefined, day 20 gets 2, and the catch-up pass writes 2 into day 21. |
| Scenarios.ManualWins | tests/defaultValues.test.js:80-89 | S6: a manual 3 survives the catch-up pass. |
| Scenarios.ManualZeroIsEmpty | tests/defaultValues.test.js:91-98 | S7: a manual 0 leaves the day undefined. |
| Scenarios.CallerZoneDecides | tests/defaultValues.test.js:100-110 | S8: the pass is called in New York and keys by New York's day (20 August, which already holds 1 from the activation in Paris). Paris's day (21 August) stays undefined. |
| Scenarios.DeactivationClearsToday | tests/defaultValues.test.js:112-121 | S9: today is 1 after activation and undefined after deactivation. |

## Left out

- Time-zone conversion. The work `Intl.DateTimeFormat` and `formatToParts` do (defaultValues.js:4-10) is foreign code. It is the `Calendar` parameter, a function from zone and instant to calendar day. Whatever zone data backs it is not part of this model, so scenario S8 requires the days the real zones give.
- An invalid zone name. `getTodayId` throws for one; the model has no error path for it, since the model's `Calendar` is total.
- The clock. The default arguments `now = new Date()` and `tz = 'UTC'` (defaultValues.js:14, 35) are not modelled; callers pass `now` and `tz` explicitly. `resetDay`'s default list `['pain', 'stiffness']` (defaultValues.js:52) is what callers pass as `Tracker.Tracked`.
- A missing metric series. Where the JavaScript reads `state[metric]` of a metric without a series, it throws a TypeError (defaultValues.js:21-22, 29, 42-43, 54-55, 63, 65). The model requires the series to exist: `metric in data` for `saveDefault`, `saveManual` and one `resetDay` callback, `Tracker.AllPresent` for `resetDay`, and `Tracker.Materializable` for a due metric of `dailyMaterialization`. So it does not model the partial update a throw leaves behind. For example, `saveDefault` has already written the level at that point.
- The missing objects `state.settings` and `state.defaultSkipDates`. These would make every operation throw; the record always has them.
- Entries that are `null`. An entry is absent or an integer. The JavaScript treats `null` like an absent entry or 0 (defaultValues.js:23, 45), so `null` is folded into 0. This changes one case of deactivation: for a `null` entry whose previous level is 0, the JavaScript evaluates `null === 0` as false and keeps the entry (defaultValues.js:29), while `Tracker.SaveDefault` with `value <= 0` sees the entry as 0, equal to the previous level, and deletes it.
- Non-integer numbers. Levels and values are mathematical integers; floating point, `NaN` and non-number values are not modelled.
- Truthy skip flags other than `true`. Flags are booleans, which is all `resetDay` ever writes.
- Character order. `LexLe` compares Dafny characters by code point, while JavaScript compares UTF-16 code units. The two agree on the ASCII digits and '-' that day identifiers use.
- Colliding metric names. A metric named like another key of the record (`settings`, `defaultSkipDates`), or like an object prototype key, is not modelled; data series are a map of their own.
