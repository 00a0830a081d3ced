# habit.sys — a Dafny model of the streak, eligibility and punchcard logic

habit.sys is a single-habit tracker: a user defines a protocol (identity,
habit, cue, weekly frequency), checks it off each day, sees a streak and a
punchcard of past days, and may only create another habit once the latest
one has at least 10 completions at a dedication of at least 90%.

This project models the deterministic core of that application with
calendar days as integers (day 0 is 1970-01-01, a Thursday; the short
weekday name of day `d` is `ShortNames[(d + 3) % 7]`):

- `ProtocolStreak` (streak.dfy): the streak walk of `queryProtocolStreak`,
  a method with the source's `for` loop, `continue` and `break`, proved equal
  to the function `Streak`; for newest-first input the streak is the length
  of the run of consecutive logged days ending at the newest log, and a
  repeated row never changes it.
- `ProtocolEligibility` (eligibility.dfy): `checkProtocolEligibility` with
  the latest habit and its row count as inputs; the rate is a `real`, the
  rule is proved equivalent to `completions >= 10 && 100 * completions >= 90 * totalDays`.
- `Punchcard` (punchcard.dfy): the day-enumeration `while` loop with the
  frequency filter, the log-set test and the newest-first display order.
- `PatchVersion` (patch_version.dfy): commit count to `major.minor.patch`.
- `HabitWizard` (habit_wizard.dfy): the four-step wizard as a class whose
  handlers update `currentStep`, `direction`, `formData` and
  `validationError`; validation, trimming and the weekday toggle are pure
  functions.
- `HabitTaskList` (task_list.dfy): the optimistic completed-id reducer, the
  habits due today, `sortHabits` and the eligibility override.
- `LegacyWizard` (legacy_wizard.dfy): the older three-step page as a class.
- `Seqs`, `Days`, `Wrappers`: `filter`, `reverse`, subsequences; weekday
  names; `Option`.

Inputs that the source reads from the outside are parameters: "today" (a
day number), the log rows (day numbers, in the order the query returns
them), the latest habit (or none), the number of its log rows, and the
result of the git call (`None` when it throws).

The model follows the code as written: the eligibility count is the raw
number of log rows (two rows on one day count twice), the streak relies on
the rows arriving newest first and does not sort them itself, and the
version fallback is 64 (version 1.6.4) although the test of
`getPatchVersion` expects 65 (1.6.5).

## Model

| member | source | states |
|---|---|---|
| `ProtocolStreak.Walk` | app/dashboard/actions.ts:43-53 | the walk adds at most one day per remaining row |
| `ProtocolStreak.Streak` | app/dashboard/actions.ts:20-41 | the streak never exceeds the number of log rows |
| `ProtocolStreak.QueryProtocolStreak` | app/dashboard/actions.ts:20-55 | the loop returns `Streak`; 0 for no rows; 0 when the newest row is more than a day before today; otherwise between 1 and the number of rows |
| `ProtocolStreak.WalkIsRun` | app/dashboard/actions.ts:43-53 | on newest-first rows the walk counts exactly the consecutive logged days below the cursor, stopping at the first missing day |
| `ProtocolStreak.StreakIsRunFromNewest` | app/dashboard/actions.ts:27-53 | for newest-first rows with a current streak, the streak is the length of the run of distinct consecutive logged days ending at the newest row |
| `ProtocolStreak.RunOfUnique` | app/dashboard/actions.ts:43-53 | that run length is unique, so the previous row fully determines the streak |
| `ProtocolStreak.WalkIgnoresDuplicate` | app/dashboard/actions.ts:47-49 | a second copy of any row leaves the walk unchanged, in any row order |
| `ProtocolStreak.StreakIgnoresDuplicate` | app/dashboard/actions.ts:37-49 | a second copy of any row, including the newest, leaves the streak unchanged |
| `ProtocolStreak.StreakExample` | app/dashboard/actions.ts:22-53 | rows 0, -1, -2, -4 on day 0 give 3; duplicates of today do not count twice; a newest row 3 days old gives 0; a newest row of yesterday still counts |
| `ProtocolEligibility.TotalDays` | app/dashboard/actions.ts:143-150 | totalDays is at least 1, is 1 exactly when the habit was created today, and is `|today - createdDay| + 1` on either side of today |
| `ProtocolEligibility.Round` | app/dashboard/actions.ts:161 | `Math.round` yields the integer within one half of its argument, halves rounding up |
| `ProtocolEligibility.RateAtLeast` | app/dashboard/actions.ts:152-155 | the unrounded rate reaches a percentage exactly when `100 * completions >= percent * totalDays` |
| `ProtocolEligibility.RoundedRate` | app/dashboard/actions.ts:152-161 | the reported dedication is the rounded rate, stated as `2tr - t <= 200c < 2tr + t` |
| `ProtocolEligibility.HalfBoundsScaled` | app/dashboard/actions.ts:161 | clearing the fractions of the rounding bounds |
| `ProtocolEligibility.CheckProtocolEligibility` | app/dashboard/actions.ts:126-167 | no habit: eligible with no stats; otherwise eligible iff at least 10 completions and `100c >= 90t` on the unrounded rate, completions is the row count, totalDays from `TotalDays`, dedication the rounded rate, thresholds 10 and 90, the habit's title |
| `ProtocolEligibility.CreatedTodayOneCompletion` | app/dashboard/actions.ts:143-161 | created today with one completion: totalDays 1, dedication 100, not eligible |
| `ProtocolEligibility.EligibilityBoundaries` | app/dashboard/actions.ts:152-155 | 18 of 20 days (exactly 90%) is eligible, 17 of 20 is not, 9 of 10 is 90% but below 10 completions |
| `ProtocolEligibility.DisplayedNinetyIsNotEnough` | app/dashboard/actions.ts:152-161 | 179 of 200 days displays 90% dedication but is not eligible, since the rule uses the unrounded rate |
| `ProtocolEligibility.FutureCreationCountsDistance` | app/dashboard/actions.ts:149-150 | a creation day `k` days after today gives `k + 1` days, for every `k` and completion count |
| `Days.ShortWeekday` | components/HabitPunchcard.tsx:26 | every day has one of the seven short weekday names |
| `Days.ShortWeekdayPeriodic` | components/HabitPunchcard.tsx:26 | the weekday name repeats every 7 days and differs between consecutive days |
| `Days.MondayExactly` | components/HabitPunchcard.tsx:26-27 | the Mondays are exactly the days with `(d + 3) % 7 == 0` |
| `Seqs.Filter` | components/HabitTaskList/HabitTaskList.tsx:40 | `filter` keeps exactly the elements satisfying the predicate and never lengthens |
| `Seqs.FilterIsSubsequence` | components/HabitTaskList/HabitTaskList.tsx:57-61 | `filter` keeps the relative order |
| `Seqs.Reverse` | components/HabitPunchcard.tsx:56 | element `k` of the reversal is element `n-1-k` of the input |
| `Punchcard.Range` | components/HabitPunchcard.tsx:20-36 | the loop's days: `createdDay..today` inclusive, ascending, of length `today - createdDay + 1` or 0 |
| `Punchcard.RangeMembership` | components/HabitPunchcard.tsx:23 | a day is enumerated exactly when it lies between creation and today |
| `Punchcard.ScheduledDaysSnoc` | components/HabitPunchcard.tsx:25-35 | one more loop iteration appends the day exactly when it is scheduled |
| `Punchcard.DaysSinceCreation` | components/HabitPunchcard.tsx:20-36 | the `while` loop yields the scheduled days of `createdDay..today` in ascending order |
| `Punchcard.ScheduledDaysMembership` | components/HabitPunchcard.tsx:23-33 | a day is on the card iff it is in `createdDay..today` and, with a non-empty frequency, its weekday name is listed |
| `Punchcard.ScheduledDaysAscending` | components/HabitPunchcard.tsx:20-36 | the enumeration is strictly ascending, so each day appears once |
| `Punchcard.FutureCreationIsEmpty` | components/HabitPunchcard.tsx:23 | a creation day after today gives no slots |
| `Punchcard.NoFrequencyKeepsEveryDay` | components/HabitPunchcard.tsx:30-33 | a missing or empty frequency keeps every day: `today - createdDay + 1` slots |
| `Punchcard.CreatedTodaySlots` | components/HabitPunchcard.tsx:20-36 | a habit created today has one slot if today is scheduled and none otherwise |
| `Punchcard.ScheduledDaysStep` | components/HabitPunchcard.tsx:23-35 | the enumeration starts with the creation day when it is scheduled |
| `Punchcard.MondaysOfTenDays` | components/HabitPunchcard.tsx:25-29 | in ten days starting on a Monday, only the first and the eighth are Mondays |
| `Punchcard.MondaysFrom` | components/HabitPunchcard.tsx:23-35 | the Monday-only card of such a window from any day onwards |
| `Punchcard.MondaysInTenDays` | components/HabitPunchcard.tsx:25-29 | frequency `["Mon"]` over such a ten-day window yields exactly two slots |
| `Punchcard.MarkSlots` | components/HabitPunchcard.tsx:56-58 | each slot keeps its day and is punched iff the day is in the log set |
| `Punchcard.HabitPunchcard` | components/HabitPunchcard.tsx:20-58 | the slots are the enumeration reversed (newest first, strictly descending) and each is punched iff its day is one of the logs |
| `PatchVersion.VersionOf` | utils/patch-version.ts:12-14 | minor and patch are digits, major is at least 1, and `n == (major - 1) * 100 + minor * 10 + patch` |
| `PatchVersion.VersionRoundTrip` | utils/patch-version.ts:12-14 | every well-formed version comes back from its commit count |
| `PatchVersion.DigitsUnique` | utils/patch-version.ts:12-14 | the hundreds/tens/units split is unique |
| `PatchVersion.VersionOfInjective` | utils/patch-version.ts:12-14 | distinct commit counts give distinct versions |
| `PatchVersion.NatToString` | utils/patch-version.ts:16 | the numeral is a non-empty string of decimal digits that denotes `n`, without a leading zero |
| `PatchVersion.GetPatchVersion` | utils/patch-version.ts:4-16 | the string is the major numeral, a dot, the minor digit, a dot, the patch digit, of the git count or else of 64 |
| `PatchVersion.HundredTwentyThree` | utils/patch-version.test.ts:19-29 | 123 commits give "2.2.3" |
| `PatchVersion.FallbackVersion` | utils/patch-version.ts:4 | without git the version is "1.6.4", not the "1.6.5" the test expects |
| `HabitTaskList.ApplyOptimistic` | components/HabitTaskList/HabitTaskList.tsx:36-45 | unchecking removes the id and keeps exactly the other ids; checking appends the id |
| `HabitTaskList.UncheckKeepsOthersInOrder` | components/HabitTaskList/HabitTaskList.tsx:39-41 | unchecking keeps the other ids in order and with their multiplicities, and drops every copy of the id |
| `HabitTaskList.RemoveAllCount` | components/HabitTaskList/HabitTaskList.tsx:40 | the filter's count of each id |
| `HabitTaskList.CheckThenUncheck` | components/HabitTaskList/HabitTaskList.tsx:38-44 | checking a habit not in the list and then unchecking it restores the list |
| `HabitTaskList.HabitsForToday` | components/HabitTaskList/HabitTaskList.tsx:55-61 | a habit is shown iff its frequency is missing, empty or lists today's short weekday; order is kept |
| `HabitTaskList.SortHabits` | components/HabitTaskList/utils.test.ts:11-45 | same length, a permutation, and no uncompleted habit after a completed one |
| `HabitTaskList.SortHabitsIsStable` | components/HabitTaskList/utils.test.ts:26-36 | within the uncompleted and within the completed group the input order is kept |
| `HabitTaskList.SortHabitsOneCompleted` | components/HabitTaskList/utils.test.ts:11-24 | a completed first habit moves to the end, the rest keep their order |
| `HabitTaskList.SortHabitsNoneCompleted` | components/HabitTaskList/utils.test.ts:26-36 | with nothing completed the order is unchanged |
| `HabitTaskList.SortHabitsAllCompleted` | components/HabitTaskList/utils.test.ts:38-45 | with everything completed the order is unchanged |
| `HabitTaskList.SortedHabits` | components/HabitTaskList/HabitTaskList.tsx:54-64 | the rendered list is a permutation of the habits due on today's weekday, with no uncompleted habit after a completed one |
| `HabitTaskList.IsEligible` | components/HabitTaskList/HabitTaskList.tsx:52 | the override forces eligibility; without it the evaluated flag decides |
| `HabitWizard.TrimStart` | components/HabitWizard/HabitWizard.tsx:114 | leading white space is removed and nothing else |
| `HabitWizard.TrimEnd` | components/HabitWizard/HabitWizard.tsx:114 | trailing white space is removed and nothing else |
| `HabitWizard.IsInputInvalid` | components/HabitWizard/HabitWizard.tsx:114 | a value is invalid iff it is empty or made only of white space |
| `HabitWizard.Lower` | components/HabitWizard/HabitWizard.tsx:146 | lower-casing maps every character |
| `HabitWizard.Upper` | components/HabitWizard/HabitWizard.tsx:279 | upper-casing maps every character |
| `HabitWizard.ValueDay` | components/HabitWizard/HabitWizard.tsx:146 | the first character is kept and the rest lower-cased |
| `HabitWizard.DisplayDaysAreShortNames` | components/HabitWizard/HabitWizard.tsx:11-79 | 'MON'..'SUN' become 'Mon'..'Sun', the same names the punchcard and task list test; the default frequency is all seven |
| `HabitWizard.ToggledDays` | components/HabitWizard/HabitWizard.tsx:148-155 | the toggled day flips membership, other days keep theirs, and no duplicates appear |
| `HabitWizard.SubsequenceNoDuplicates` | components/HabitWizard/HabitWizard.tsx:152 | removing days keeps a list free of duplicates |
| `HabitWizard.SubsequenceMembers` | components/HabitWizard/HabitWizard.tsx:152 | removing days only keeps days that were there |
| `HabitWizard.ToggleTwiceRestores` | components/HabitWizard/HabitWizard.tsx:144-157 | toggling an unselected day twice gives back the same list |
| `HabitWizard.ToggleTwiceRestoresMembership` | components/HabitWizard/HabitWizard.tsx:144-157 | toggling any day twice restores the selected set |
| `HabitWizard.InitialFormData` | components/HabitWizard/HabitWizard.tsx:75-80 | without initial data: blanks and all seven days; with it: exactly that data, an empty frequency included |
| `HabitWizard.StepError` | components/HabitWizard/HabitWizard.tsx:116-127 | 'AT_LEAST_ONE_CYCLE_REQUIRED' iff on the frequency step with no day; 'INPUT_REQUIRED.SYS' iff on a text step whose value is blank |
| `HabitWizard.Wizard.constructor` | components/HabitWizard/HabitWizard.tsx:72-81 | starts on step 0, direction +1, no error, the initial form data |
| `HabitWizard.Wizard.HandleNext` | components/HabitWizard/HabitWizard.tsx:116-134 | step stays in 0..3; an error is set and the step kept when invalid; otherwise advances with direction +1 and the error cleared, except on the last step where nothing changes |
| `HabitWizard.Wizard.HandleBack` | components/HabitWizard/HabitWizard.tsx:136-142 | goes back with direction -1 and the error cleared, never below step 0 |
| `HabitWizard.Wizard.ToggleDay` | components/HabitWizard/HabitWizard.tsx:144-159 | the frequency becomes `ToggledDays` of the stored code, the error is cleared, nothing else changes |
| `HabitWizard.Wizard.TypeText` | components/HabitWizard/HabitWizard.tsx:278-281 | the current step's field takes the upper-cased value and the error is cleared |
| `HabitWizard.Wizard.Submit` | components/HabitWizard/HabitWizard.tsx:181-205 | the server action runs iff on the last step with a valid value; an invalid step sets its error; earlier valid steps advance as `HandleNext` |
| `LegacyWizard.NextDisabledFor` | app/dashboard/new/page.tsx:165 | Next is disabled iff the field is the empty string |
| `LegacyWizard.BlankFieldAcceptedOnlyHere` | app/dashboard/new/page.tsx:165 | a field of spaces enables Next here, while the newer wizard rejects it |
| `LegacyWizard.SegmentHighlighted` | app/dashboard/new/page.tsx:70-75 | segment `i` is highlighted iff `i <= currentStep`; all are on the last step |
| `LegacyWizard.NewHabitPage.constructor` | app/dashboard/new/page.tsx:40-45 | starts on step 0 with three empty fields |
| `LegacyWizard.NewHabitPage.NextDisabled` | app/dashboard/new/page.tsx:165 | Next is disabled iff the current step's field is empty |
| `LegacyWizard.NewHabitPage.BackDisabled` | app/dashboard/new/page.tsx:145 | Back is disabled iff on the first step |
| `LegacyWizard.NewHabitPage.HandleNext` | app/dashboard/new/page.tsx:52-56 | advances while before the last step, stays in 0..2, fields unchanged |
| `LegacyWizard.NewHabitPage.HandleBack` | app/dashboard/new/page.tsx:58-62 | goes back while after the first step, stays in 0..2 |
| `LegacyWizard.NewHabitPage.PressEnter` | app/dashboard/new/page.tsx:129-134 | Enter advances unless on the last step, whatever the field holds |
| `LegacyWizard.NewHabitPage.Type` | app/dashboard/new/page.tsx:126 | the current step's field takes the typed value unchanged |

## Left out

- Authentication: the `userId` checks (`return 0`, `Unauthorized`) of app/dashboard/actions.ts:8-10 and 111-113 belong to the hosted auth service.
- Database reads and writes: the queries of `queryProtocolStreak` and `checkProtocolEligibility` become inputs; `commitHabitLog` and `forceResetProtocol` are storage effects and are not modelled.
- Time zones: components/HabitPunchcard.tsx:15-18 builds every slot at local midnight and line 57 keys it by its UTC date (`toISOString`), so for a viewer east of UTC every slot's key is the previous calendar date and the punches are shifted by one day across the whole card; the streak's day differences also stop being whole numbers across a DST change. The model compares calendar days as exact integers and does not capture either shift.
- ProtocolEligibility.DedicationRate: exact rational arithmetic instead of IEEE doubles. In doubles `(23 / 40) * 100` is `57.49999999999999`, so the source displays a dedication of 57 where `Round` gives 58; displayed values that fall on a half can differ in this way. The eligibility threshold is not affected for realistic day counts: at exactly 90% the quotient `9/10` rounds to the same double for every `t` and yields `90`, and below it the gap `1/(100 t)` is far larger than the rounding error.
- PatchVersion.GetPatchVersion: `execSync` and `parseInt` are outside the model (a `NaN` or negative count cannot occur); the git result is a parameter.
- HabitWizard.Lower, HabitWizard.Upper: ASCII case mapping only, whereas `toLowerCase`/`toUpperCase` map all of Unicode (and may change the length).
- Punchcard.HabitPunchcard: the in-place `reverse()` of the array is modelled on values; the title, reference and date labels are presentation.
- HabitTaskList.SortHabits: components/HabitTaskList/utils.ts is not part of this model; `sortHabits` is modelled from its tests and the comparator they describe, as a stable sort of uncompleted before completed.
- React: state setters are modelled as immediate field updates; `displayStep`, focus handling, animations, `isPending`, the router and the optimistic-update reconciliation (`handleToggle`) are presentation or asynchronous glue.
- Sound, animation easing, the Stripe webhook, e-mail and the end-to-end browser tests.
