# Ad manager budget engine, in Dafny

This project models the budget and scheduling engine of a Django ad manager. Brands have daily and monthly budgets. Ads run inside a time window, and their running time is billed per hour.

The model covers two parts of the engine.

**Reporting** (`backend/api/models.py`):
- `Ad.get_daily_spend` walks an ad's window from its start up to the earlier of its end and the current instant. It yields one entry per calendar date with a whole number of hours:
  - when the stop falls on a later date than the start, the first date counts from the start to 23:59:59.999999, rounded up;
  - when the stop falls on a later date than the start, every later date counts from 00:00:00.999999, so interior dates are 24 hours and the last date is its span from that point, rounded up (an end at 08:00:00.5 gives 8, not 9);
  - a span within one date gives one entry, the ceiling of stop − start (09:00 to 17:00 is 8 hours);
  - an ad that has not started yet (its start after the earlier of its end and now) skips the walk and gets one entry on its start date holding the ceiling of a negative span. An ad from 09:00 to 17:00 on 2023-01-03, looked at on 2023-01-01 at noon, is charged -45 hours. The brand lists include such ads, so their negative hours reduce that date's and that month's totals.
- `Brand.get_daily_spend` and `Brand.get_monthly_spend` merge the brand's per-ad lists into one entry per date, or per year and month.
- `Brand.get_date_spend` and `Brand.get_month_spend` look up one key, with 0 as the default.

**Periodic routines** (`backend/api/tasks.py`):
- The scheduler switches ads on and off from their window and their brand's headroom.
- The accrual upserts today's hours for each active ad into the AdSpend table.
- The rollup recomputes each brand's daily and monthly spend from AdSpend, and switches off every ad of a brand that has reached a budget.

How the model represents things:
- **Time.** Instants are whole microseconds on one zone-free timeline; dates are day numbers (`time.dfy`). Microseconds matter because the walk ends a day at 23:59:59.999999, so a start at 00:59:59 is charged 24 hours for its first day. It then steps one second, so the next day is charged from 00:00:00.999999 (`Buckets.ResumePoint`), and half a second past midnight is charged 0 hours.
- **Rounding.** `ceil(total_seconds() / 3600)` becomes exact integer ceiling division (`Time.CeilHours`).
- **Months.** A month is a `YearMonth`, built with a days-to-civil-date conversion (`Time.MonthOf`).
- **Entities.**
  - Brand and Ad are classes whose fields the routines update in place.
  - The three tables form a `Database` class. The AdSpend table is a sequence of rows with at most one row per (ad, date).
  - Money is exact (`real`, standing for Decimal).
  - Nullable columns are `Option`s.
- **Clock.** Each routine takes the clock as its parameter `now`. That one value serves both for the task's `timezone.now()` and for the scheduler's `datetime.now()`.
- **Per-ad walk.** `Models.Ad.DailySpend` is the loop of the source. It is proved equal to a closed form, `Buckets.DailyBuckets`: a first bucket, interior days of 24 hours and a last bucket.
- **Brand lists.** `Models.Brand.DailySpend` and `MonthlySpend` are the nested loops. They are proved against `SpendLists.Merged`, whose meaning `SpendLists.MergedSpec` states:
  - keys in first-seen order, each once;
  - each key's duration is the sum of the durations under that key;
  - the grand total is preserved.
- **Routines.** `Tasks.ScheduleAds`, `Tasks.UpdateAdSpend` and `Tasks.UpdateBrandSpend` state the new state of every ad, row and brand.
- **Tests.** `examples.dfy` and `scenarios.dfy` check the expected values of the repository's tests (`backend/api/tests.py`) against the model, routine by routine.

Two behaviours of the code worth knowing:
- **Scheduler without headroom.** An ad inside its window whose brand has no headroom is left exactly as it was, *including an ad that is already active*. The scheduler does not switch it off; only the rollup does (`backend/api/tasks.py:26-27`).
- **Rollup reset.** The reset branch of the rollup compares only the month number of the last update with the current one, not the year. The model keeps that comparison. The reset is saved (`backend/api/tasks.py:63`) and then overwritten by the recomputed sums (`backend/api/tasks.py:68-71`), so the state after the rollup does not depend on it (`Tasks.RollUpBrand`).

## Model

| member | source | states |
|---|---|---|
| Time.DateOf | backend/api/models.py:105 | `.date()`: the day number holding an instant (floor division by a day); its meaning is stated by DateOfBetween |
| Time.Midnight | backend/api/tasks.py:38 | today's midnight lies on the given date |
| Time.LastMicrosecond | backend/api/models.py:107 | 23:59:59.999999 lies on the date and is one microsecond before the next midnight |
| Time.DateOfBetween | backend/api/models.py:105 | an instant lies on date d exactly when it is at or after d's midnight and before the next |
| Time.CeilHours | backend/api/models.py:111 | the hour count h satisfies (h-1)·1h < span ≤ h·1h, i.e. it is the ceiling of the span in hours |
| Time.CeilHoursUnique | backend/api/models.py:111 | that covering property determines the ceiling uniquely |
| Time.CeilHoursWithinDay | backend/api/models.py:107-119 | a span from just under an hour negative up to one day rounds to 0..24 hours |
| Time.CivilFromDays | backend/api/models.py:52 | the civil (proleptic Gregorian) year, month and day of a day number; checked on 2023-01 and 2023-02 by the examples |
| Time.MonthOf | backend/api/models.py:52 | `strftime('%Y-%m')` as a (year, month) pair |
| Buckets.DailyBuckets | backend/api/models.py:105-120 | the closed form of the walk; BucketAt, SameDayBucket, BucketDates and BucketHoursWithinDay state its meaning |
| Buckets.EffectiveEnd | backend/api/models.py:100-103 | the counted span stops at the earlier of the end time and now, and at one of them |
| Buckets.ResumePoint | backend/api/models.py:113 | after a day, the walk resumes one second after 23:59:59.999999, on the next date |
| Buckets.BucketAt | backend/api/models.py:105-120 | a span crossing midnight yields one bucket per date: the first is the ceiling to end of day, interior ones 24, the last measured from the resume point |
| Buckets.SameDayBucket | backend/api/models.py:115-120 | a span within one date yields exactly one entry, that date with the ceiling of the span |
| Buckets.BucketDates | backend/api/models.py:105-120 | bucket k is for start date + k, so dates are consecutive and increasing from the start date to the stop date |
| Buckets.BucketHoursWithinDay | backend/api/models.py:107-119 | when start ≤ stop, every bucket holds 0..24 hours |
| Models.Ad.DailySpend | backend/api/models.py:95-122 | the walk's list equals the closed form from start to min(end, now) |
| Models.Ad.constructor | backend/api/models.py:84-90 | a new ad has its fields and no activation checkpoint |
| Models.Brand.constructor | backend/api/models.py:15-21 | a new brand has both spends at 0 and no rollup yet |
| Models.Database.constructor | backend/api/models.py:125-128 | the three tables as given, which must have the tables' integrity (each brand and ad once, every reference present, one AdSpend row per ad and date); the new database is valid |
| Models.AllBucketsSnoc | backend/api/models.py:27-28 | the buckets of one more ad follow those of the ads before it |
| Models.AllBuckets | backend/api/models.py:27-29 | the per-ad lists of the brand's ads, concatenated in loop order |
| SpendLists.Merge | backend/api/models.py:30-41 | one step of the merge loop: add to the first entry with the key, or append; MergeKeys, MergeLookup and MergeTotal state its meaning |
| SpendLists.Merged | backend/api/models.py:27-41 | the merge step folded over the entries in visiting order; MergedSpec states its meaning |
| SpendLists.Keys | backend/api/models.py:30 | the keys of a list, position by position |
| SpendLists.FirstIndex | backend/api/models.py:30-32 | the search finds the first entry with the key, or reports that there is none |
| SpendLists.Lookup | backend/api/models.py:67-79 | the lookup gives 0 when no entry has the key, and with distinct keys the duration of the entry that has it |
| SpendLists.FirstSeenMembers | backend/api/models.py:37-41 | first-seen order holds exactly the values of the input, each once |
| SpendLists.MergeKeys | backend/api/models.py:30-41 | a merge step leaves the keys in place for a known key and appends a new key at the end |
| SpendLists.MergeLookup | backend/api/models.py:30-41 | a merge step adds the entry's duration under its key and changes no other key's amount |
| SpendLists.FirstIndexSameKeys | backend/api/models.py:30-36 | overwriting an entry's duration does not change where any key is found |
| SpendLists.FirstIndexUnique | backend/api/models.py:30-32 | the first index is the only index holding the key with none before it |
| SpendLists.TotalUpdate | backend/api/models.py:33-36 | overwriting one entry changes the grand total by the difference |
| SpendLists.MergeTotal | backend/api/models.py:30-41 | a merge step adds exactly the entry's duration to the grand total |
| SpendLists.MergedSpec | backend/api/models.py:27-43 | the merged list has keys in first-seen order, each key once, each key's duration the sum over the inputs with that key, and the same grand total |
| SpendLists.SumForAppend | backend/api/models.py:27-29 | per-key sums and totals split over concatenated ad lists |
| SpendLists.MergedAppend | backend/api/models.py:29-41 | merging one more entry is one more merge step |
| SpendLists.MergedSnoc | backend/api/models.py:29-41 | the same step stated for the loop index over one ad's buckets |
| SpendLists.Rekey | backend/api/models.py:52-61 | re-keying replaces each key by its image and keeps every duration |
| SpendLists.RekeyAppend | backend/api/models.py:49-51 | re-keying distributes over concatenated ad lists |
| SpendLists.RekeySnoc | backend/api/models.py:51-63 | merging one more re-keyed entry is one more merge step on its month |
| SpendLists.RekeyTotal | backend/api/models.py:45-64 | re-keying by month keeps the grand total |
| Models.Brand.DailySpend | backend/api/models.py:23-43 | dates in first-seen order over the ads' buckets, each once, each date's hours the sum of the ads' hours on it, same grand total |
| Models.Brand.MonthlySpend | backend/api/models.py:45-64 | the same keyed by year and month, and the grand total equals the daily buckets' grand total |
| Models.Brand.DateSpend | backend/api/models.py:74-79 | the hours on a date are the sum of the ads' hours on it, 0 when none ran |
| Models.Brand.MonthSpend | backend/api/models.py:67-72 | the hours in a month are the sum of the ads' hours in it, 0 when none ran |
| Tasks.HasHeadroom | backend/api/tasks.py:20 | the scheduler's guard: monthly and daily budget both above their spends |
| Tasks.Exhausted | backend/api/tasks.py:73 | the rollup's cutoff: either budget at or under its spend |
| Tasks.InWindow | backend/api/tasks.py:19 | start ≤ now ≤ end, both ends included |
| Tasks.ExhaustedIsNoHeadroom | backend/api/tasks.py:20-73 | the rollup's cutoff (at or over either budget) is exactly the negation of the scheduler's guard |
| Tasks.Scheduled | backend/api/tasks.py:16-31 | the ad is active afterwards iff in its window and (headroom or already active); the checkpoint becomes now iff an inactive ad is switched on |
| Tasks.ScheduledIdempotent | backend/api/tasks.py:16-31 | a second scheduling decision at the same instant changes nothing |
| Tasks.ScheduleAds | backend/api/tasks.py:11-33 | every ad's active flag and checkpoint are its scheduling decision; only ads are written, so brands and AdSpend are unchanged |
| Tasks.AccruedHours | backend/api/tasks.py:38-48 | the hours cover the span from the later of the checkpoint and midnight up to now, rounded up; 0..24 when the checkpoint is not in the future |
| Tasks.FindRow | backend/api/tasks.py:49 | the row for (ad, date) is found if one exists and reported absent otherwise |
| Tasks.SpentOnUnique | backend/api/tasks.py:49 | with one row per key, the value found under a row's key is that row's |
| Tasks.Upsert | backend/api/tasks.py:49 | `update_or_create`: overwrite the spent value of the (ad, date) row, or append a new row; UpsertSpec states its meaning |
| Tasks.UpsertSpec | backend/api/tasks.py:49 | update_or_create keeps one row per key, sets the value under its key, leaves every other key alone, and changes nothing when the value is already there |
| Tasks.UpdateAdSpend | backend/api/tasks.py:35-49 | the table becomes the upserts of every active ad's accrued hours for today, in table order; so (by AccruedSpec) today's row of every active ad holds its hours, overwritten rather than added to, other rows keep their values, and already-current values leave the table unchanged |
| Tasks.Accrued | backend/api/tasks.py:39-49 | the table after upserting each active ad's hours for today, in table order; AccruedSpec states its meaning |
| Tasks.AccruedSpec | backend/api/tasks.py:39-49 | after the upserts, keys stay unique, every row belongs to an ad or was there before, each active ad's value for today is its accrued hours, every other (ad, date) keeps its value, and nothing changes when the values are already in place |
| Tasks.UpdateAdSpendTwice | backend/api/tasks.py:35-49 | running the accrual twice at one instant changes nothing the second time |
| Tasks.SumSpent | backend/api/tasks.py:65-66 | `aggregate(Sum('spent'))` over the brand's rows in the period, None when there are none; the period test InPeriod is the `date=` filter for a day and the `date__month`/`date__year` filters for a month; SumSpentNone states the None case |
| Tasks.SumSpentNone | backend/api/tasks.py:65-66 | the aggregate is None exactly when no row of the brand falls in the period |
| Tasks.RollUpBrand | backend/api/tasks.py:57-74 | the brand's spends become today's and this month's sums and its checkpoint now; its active ads are switched off iff it is at or over a budget; nothing else changes |
| Tasks.ResetSpends | backend/api/tasks.py:58-63 | on a new tick the daily spend is zeroed, the monthly spend too when the month number differs (the year is not compared), and the checkpoint moves to now; otherwise nothing changes |
| Tasks.DeactivateAds | backend/api/tasks.py:74 | every ad of the brand ends inactive; other ads' flags and all checkpoints are unchanged |
| Tasks.RolledUpHeadroom | backend/api/tasks.py:20-74 | a brand the rollup left under both budgets passes the scheduler's headroom test |
| Tasks.UpdateBrandSpend | backend/api/tasks.py:52-74 | every brand rolled up; an ad stays active iff it was and its brand is under both budgets; checkpoints untouched; afterwards every active ad's brand has headroom |
| Tasks.UpdateBrandSpendTwice | backend/api/tasks.py:52-74 | running the rollup twice with no AdSpend change gives the same spends and flags |
| Examples.January2023 | backend/api/tests.py:93-97 | every date from 2023-01-01 to 2023-01-31 is in month 2023-01 |
| Examples.February2023 | backend/api/tests.py:98-101 | every date from 2023-02-01 to 2023-02-28 is in month 2023-02 |
| Examples.EarlyMonths2023 | backend/api/tests.py:88-102 | the calendar month of every date in January and February 2023 |
| Examples.FullDaysInMonth | backend/api/models.py:52-63 | a run of full days within one month adds 24 hours a day to it and nothing to another month |
| Examples.AdOneDay | backend/api/tests.py:150-154 | 09:00 to 17:00 on one day is one bucket of 8 hours |
| Examples.AdManyDays | backend/api/tests.py:156-173 | 2023-01-01 09:00 to 2023-01-03 08:00 is 15, 24 and 8 hours |
| Examples.AdEndingInFuture | backend/api/tests.py:175-185 | an ad from two hours ago to two hours ahead is charged 2 hours |
| Examples.StartJustBeforeOneOClock | backend/api/models.py:107-111 | a start at 00:59:59 is charged 24 hours for its first day |
| Examples.EndJustAfterMidnight | backend/api/models.py:113-119 | the walk resumes at 00:00:00.999999, so half a second after midnight is charged 0 hours |
| Examples.EndHalfSecondPastEight | backend/api/models.py:113-119 | the last date is charged from 00:00:00.999999: 09:00 to 08:00:00.5 the next day is 15 then 8 hours |
| Examples.NotYetStarted | backend/api/models.py:102-119 | an ad that has not started skips the walk and is charged the ceiling of a negative span on its start date: -45 hours |
| Examples.BrandOneDay | backend/api/tests.py:38-44 | two ads of 8 and 11 hours on one day merge into one entry of 19 |
| Examples.MergedInto | backend/api/models.py:30-36 | merging an entry whose key is already present adds to the first entry with that key |
| Examples.MergedThreeNew | backend/api/models.py:37-41 | three entries with different keys are appended as they are |
| Examples.MergeTwoRuns | backend/api/models.py:27-41 | two ads' buckets over the same three dates merge into one entry per date with the amounts added |
| Examples.BrandManyDays | backend/api/tests.py:46-66 | two ads over three days: 30, 48 and 20 hours, the values get_date_spend returns at tests.py:104-113 |
| Examples.LongAdBuckets | backend/api/tests.py:88-92 | 2023-01-01 09:00 to 2023-02-03 09:00 is 15, 32 days of 24 and 9 hours |
| Examples.LongAdParts | backend/api/tests.py:88-102 | the long ad gives 735 hours to January and 57 to February |
| Examples.ShortAdParts | backend/api/tests.py:88-102 | the short ad gives 47 hours to January and none to February |
| Examples.BrandManyMonths | backend/api/tests.py:88-102 | the brand's two ads sum to 782 hours in January and 57 in February, as get_month_spend returns at tests.py:115-123 |
| Scenarios.Setup | backend/api/tests.py:188-201 | one brand under budget and one inactive ad, with the tables' integrity |
| Scenarios.SchedulerActivates | backend/api/tests.py:203-209 | at 10:00, inside the window and under budget, the ad becomes active with checkpoint 10:00 |
| Scenarios.SchedulerBudgetExceeded | backend/api/tests.py:212-221 | with 120 spent against a daily budget of 100 the ad stays inactive |
| Scenarios.SchedulerDeactivates | backend/api/tests.py:223-232 | at 18:00, after the window, an active ad is switched off |
| Scenarios.AccrualOneDay | backend/api/tests.py:250-258 | active from 12:00, accrued at 14:00: 2 hours for that date |
| Scenarios.AccrualNextDay | backend/api/tests.py:260-268 | active from 12:00, accrued at 14:00 the next day: 14 hours, counted from midnight |
| Scenarios.Tick | backend/api/tests.py:293-299 | an accrual then a rollup at one instant: the table the upsert gives, the brand's spends are its sums, the ad stays active while under budget |
| Scenarios.Clock | backend/api/tasks.py:38-48 | the accrued hours at 14:00 and 16:00, 14:00 the next day and 10:00 on 2023-02-01 for an ad switched on at noon: 2, 4, 14 and 10 |
| Scenarios.StartedAtNoon | backend/api/tests.py:289-291 | the scheduler at noon switches the test ad on with checkpoint 12:00 |
| Scenarios.SumsOfOneRow | backend/api/tasks.py:65-66 | one row dated today gives that amount for the day and for the month |
| Scenarios.SumSpentSnoc | backend/api/tasks.py:65-66 | the sum over one more row |
| Scenarios.SumsOfTwoRows | backend/api/tasks.py:65-66 | a second row in the same month: today is that row, the month both rows |
| Scenarios.SumsOfThreeRows | backend/api/tasks.py:65-66 | a third row in a later month: today and the month are that row alone |
| Scenarios.ThroughFourPm | backend/api/tests.py:289-299 | after ticks at 14:00 and 16:00 the table is one row of 4 hours and the brand's spends are 4 and 4 |
| Scenarios.RollupOneDay | backend/api/tests.py:289-304 | after ticks at 14:00 and 16:00 the brand's daily and monthly spend are 4 |
| Scenarios.RollupManyDays | backend/api/tests.py:306-333 | then 14 and 18 on 2023-01-02, and 10 and 10 on 2023-02-01 |

## Left out

- Time zones: `tzinfo` and the naive `datetime.now()` next to `timezone.now()` are not modelled. All instants share one zone-free timeline, and each routine takes one clock value, `now`.
- Floating point: `total_seconds() / 3600` is replaced by exact integer ceiling division on microseconds. No float rounding is modelled.
- Models.Brand.DailySpend, Models.Brand.MonthlySpend: the query that fetches the brand's ads and orders them by descending start time is not modelled. The ads come in as a parameter, already in the order the caller gives. The key order of the result follows that order; the per-key sums do not depend on it.
- Models.Brand.MonthSpend: the month is a `YearMonth` value, not the `'%Y-%m'` string that `strftime` builds and `get_month_spend` compares. Formatting and parsing that string are not modelled.
- Time.MonthOf: no general lemma proves it matches the Gregorian calendar. It is checked on every date of January and February 2023, which the tests use.
- Exceptions on null values are preconditions rather than modelled error paths:
  - `Tasks.ScheduleAds` requires the spends it compares to be set (`Tasks.Comparable`);
  - `Tasks.UpdateAdSpend` requires every active ad to have a checkpoint (`Tasks.CheckpointsSet`);
  - `Tasks.UpdateBrandSpend` requires the sums it compares to be non-null (`Tasks.RollupComparable`).
- The scheduler's `exclude(start_time=None).exclude(end_time=None)` is not modelled: both columns are non-nullable in the schema, so the filter keeps every ad.
- The database: queries, `aggregate(Sum)`, `update_or_create`, bulk `update`, `save` and `refresh_from_db` become operations on in-memory sequences. Transactions, concurrent workers and a failure midway through a pass are not modelled.
- Decimal column widths (`max_digits`, `decimal_places`) are not modelled. Money is an unbounded exact `real`, and AdSpend rows store the whole hours as reals.
- `Settings` and `hourly_rate`: the singleton save trick and the rate are not used by the engine, so they are not modelled.
- Logging and console messages in the scheduler are not modelled.
- The Celery application, its beat schedule, the REST view sets, the serializers and the admin site hold no engine logic and are not part of this model.
- Tasks.RollUpBrand: the reset branch is modelled; the reset is saved at backend/api/tasks.py:63 and overwritten at backend/api/tasks.py:68-71. Only the final state is stated, not the intermediate save.
