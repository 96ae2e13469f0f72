# Therapy session reporting: a verified model

This project models the deterministic core of a small therapy-practice
reporting tool. The tool has two parts:

- **The session generator** (`SessionDataGenerator.generate_sessions`). It
  builds synthetic session records from random choices: therapist, date,
  time, session type, status, client and note. Candidates that fall on a
  Saturday or Sunday are dropped. Each record's duration, billed amount,
  `S####` id, `C###` client id, `HH:MM` time and note follow fixed rules.
- **The dashboard pipeline** (the body of `main`). It filters the session
  table by date range, therapist, session type and status. It then computes:
  - the key metrics (total sessions, completion rate, revenue, no-show rate);
  - the sessions-by-therapist summary and the status distribution;
  - daily, weekly or monthly revenue;
  - the session type × status cross-tab;
  - revenue by therapist.

Modules, one per file:

- `Dates` (`dates.dfy`): proleptic Gregorian dates, the day number that
  Python's `toordinal` uses, the weekday (Monday = 0), day arithmetic, and
  the start of a date's Monday-to-Sunday week and of its month.
- `Text` (`text.dfy`): zero-padded decimal fields (`f"{n:0Wd}"`), their
  parser, and Python's code-point string order.
- `Sessions` (`sessions.dfy`): the session record, the therapist, session
  type, status and note tables, and the duration, amount, note and field
  format rules.
- `Generator` (`generator.dfy`): the generation loop, as an imperative
  method proved against a recursive specification function.
- `Grouping` (`grouping.dfy`): a generic group-by-sum with sorted keys, and
  a stable descending sort by total.
- `Dashboard` (`dashboard.dfy`): the filter and every aggregation, as pure
  functions over a sequence of rows.

Money is held in integer cents. Every rate is in whole dollars, so `rate * 1.2`
and `rate * 0.6` are exactly `rate * 120` and `rate * 60` cents. A rate is
held as an exact fraction `Percent(num, den)` meaning `num / den` percent.
Randomness is an input: one `Draw` per candidate holds what the random calls
return for it.

## Model

| member | source | states |
|---|---|---|
| Sessions.TherapistRatesPositive | data_generator.py:10-17 | The therapist table has six entries and every rate is positive. |
| Sessions.Duration | data_generator.py:66-72 | Duration depends on the session type alone: 90 exactly for Initial Consultation, 60 exactly for Couples or Family Therapy, 50 otherwise. |
| Sessions.AmountCents | data_generator.py:74-85 | Cancelled and No-Show bill 0. Every other status bills the type-adjusted fee (×1.2 initial consultation, ×0.6 group, ×1 otherwise). The amount is positive exactly when the status is billable and the rate positive. |
| Sessions.NoteChoices | data_generator.py:105-138 | Each of the four statuses has five note templates. Any other status gets only "Standard session". |
| Sessions.Note | data_generator.py:98 | The chosen note is one of the notes its status may receive. |
| Sessions.SessionIdFormat | data_generator.py:88 | Candidate i's id is 'S' plus digits that read back as i+1. It is five characters long while i+1 < 10000. |
| Sessions.ClientIdFormat | data_generator.py:91 | A client number n in 1..200 gives a four-character 'C' id that reads back as n. |
| Sessions.SessionTimeFormat | data_generator.py:54-56 | The time text is "HH:MM" with the hour in 9..17 and the minutes 00 or 30, and it reads back as the chosen hour and minute. |
| Text.ZeroPadRoundTrip | data_generator.py:88 | Parsing a zero-padded field gives back the number. |
| Text.ZeroPadWidth | data_generator.py:88 | A number below 10^W fills exactly W characters when padded to width W. |
| Text.ZeroPadInjective | data_generator.py:88 | Different numbers give different padded fields. |
| Dates.NextDay | data_generator.py:49-51 | The next calendar day is a valid date whose day number is one more. |
| Dates.AddDays | data_generator.py:49-51 | `start + timedelta(days=k)` is a valid date whose day number is k more. |
| Dates.Weekday | data_generator.py:59 | The weekday is in 0..6. |
| Dates.FirstDayNumber | data_generator.py:49-51 | Day numbering starts at 1 on 0001-01-01, as Python's `toordinal()` does. |
| Dates.FirstDayIsMonday | data_generator.py:59 | Day 1 (0001-01-01) is a Monday, weekday 0, as in Python's `weekday()`. |
| Dates.January2024Weekdays | data_generator.py:59 | 2024-01-01 is a Monday (0) and 2024-01-05 a Friday (4), not a weekend. 2024-01-06 is a Saturday (5) and 2024-01-07 a Sunday (6), both weekend days. |
| Dates.WeekdayOfNextDay | data_generator.py:49-59 | The next day's weekday is one more, modulo 7: Sunday (6) is followed by Monday (0). |
| Dates.WeekdayOfAddDays | data_generator.py:49-59 | k days later the weekday has moved on by k, modulo 7. |
| Dates.OrdinalOrder | data_generator.py:49-51 | Date order is day-number order, in both directions. |
| Generator.MakeSessionWellFormed | data_generator.py:62-99 | A record built from valid choices on a weekday satisfies every record invariant. Its id reads back as i+1. |
| Generator.GeneratedLength | data_generator.py:44-60 | Weekend candidates are dropped, not redrawn. There is one record per weekday candidate, never more than the number of candidates. |
| Generator.GeneratedRecords | data_generator.py:49-101 | Every record falls on a weekday in [start, end] and satisfies every record invariant. These invariants are: a known therapist whose rate gives the amount, a known type and status, duration by type, amount 0 exactly when not billable, the S/C/HH:MM formats, and a note of its status. |
| Generator.GeneratedIdsIncrease | data_generator.py:87-101 | Id numbers rise strictly in output order and lie in 1..num_sessions, since candidate i gets id i+1 and records are appended in candidate order. |
| Generator.GeneratedIdsUnique | data_generator.py:88 | No two records share a session id. |
| Generator.GenerateSessions | data_generator.py:34-103 | The loop's output equals the specification `Generated`. It has at most num_sessions records, each a well-formed weekday record in [start, end], with strictly rising ids. With num_sessions = 0 any date range is accepted and the result is empty. |
| Grouping.SortedKeys | dashboard.py:148 | The group keys are exactly the keys that occur in the rows. |
| Grouping.SortedKeysSorted | dashboard.py:148 | The group keys are strictly ascending and listed once each, as groupby sorts them. |
| Grouping.PartitionSum | dashboard.py:148-151 | Summing per key over a duplicate-free key list covering every row gives the sum over all rows. |
| Grouping.GroupTotalsFacts | dashboard.py:182 | A group-by-sum has one bucket per key present, keys ascending, each the sum of its rows. The buckets add up to the total of all rows. |
| Grouping.SortByTotalDesc | dashboard.py:215 | The descending sort is a permutation of its input. |
| Grouping.SortByTotalDescTotal | dashboard.py:215 | Sorting keeps the grand total of the buckets. |
| Grouping.SortByTotalDescKeys | dashboard.py:215 | Sorting keeps every key, each as often as before. |
| Grouping.SortByTotalDescOrdered | dashboard.py:215 | The sorted buckets are in non-increasing order of total. |
| Grouping.PermutationDistinct | dashboard.py:215 | A permutation of a duplicate-free sequence is duplicate-free. |
| Grouping.GroupTotalsDescKeys | dashboard.py:166 | After the descending sort every key present appears exactly once. |
| Grouping.GroupTotalsDescTotals | dashboard.py:166 | After the descending sort, totals are non-increasing, each bucket is its key's sum, and they add up to the total of all rows. |
| Dashboard.ApplyFilters | dashboard.py:104-118 | The filter output is a subsequence of the input. Each row occurs in it as often as in the input if selected, otherwise not at all. |
| Dashboard.FilterSurvivors | dashboard.py:104-118 | A row survives iff it is in the input, its therapist, type and status are all selected, and (only when two dates are picked) its date is in the inclusive range. |
| Dashboard.CompletionRate | dashboard.py:124-129 | With rows, the rate is exactly completed×100/total. With none it is 0. It always lies in [0, 100]. |
| Dashboard.NoShowRate | dashboard.py:137-138 | With rows, the rate is exactly no_shows×100/total. With none it is 0. It always lies in [0, 100]. |
| Dashboard.RatesWithinWhole | dashboard.py:124-139 | The completion and no-show rates together never exceed 100%. |
| Dashboard.CountBounds | dashboard.py:128 | A count of matching rows lies between 0 and the number of rows. |
| Dashboard.CompletedRows | dashboard.py:133 | The Completed mask keeps the input order (a subsequence). Each Completed row occurs as often as in the input, and no other row occurs. |
| Dashboard.TotalRevenueIsCompletedSum | dashboard.py:133 | Total revenue is the amount summed over Completed rows only. The PDF report line at dashboard.py:50 computes the same sum. |
| Dashboard.RevenueSplit | dashboard.py:133 | The amounts of all rows split into the Completed revenue and the amounts of the other rows. |
| Dashboard.SummaryRows | dashboard.py:148-151 | Each summary row holds its therapist's row count and amount sum. |
| Dashboard.TherapistSummaryNames | dashboard.py:148-151 | The summary has one row per therapist present, names ascending and distinct. |
| Dashboard.TherapistSummaryTotals | dashboard.py:148-151 | The session counts add up to total_sessions. The revenue column adds up to the amounts of all statuses: total revenue plus what non-Completed rows carry, such as Rescheduled amounts. |
| Dashboard.StatusCountsFacts | dashboard.py:166 | The status counts list exactly the statuses present, once each, each with a positive count equal to its row count. Counts are non-increasing and add up to total_sessions. |
| Dashboard.PeriodStartFacts | dashboard.py:29-30 | A period key is the day itself, the Monday of its Monday-to-Sunday week (at most six days earlier), or the first of its month. It is never later than the date. |
| Dashboard.RevenueOverTimeFacts | dashboard.py:181-191 | Revenue buckets cover exactly the periods holding a Completed row, keys strictly ascending. Each bucket is that period's Completed revenue, and together they add up to total revenue. |
| Dashboard.OfType | dashboard.py:210 | The rows of one session type, in input order, each as often as in the input, no other row. Their number is that type's count. |
| Dashboard.CrossTabAxes | dashboard.py:210 | The cross-tab's rows are the observed session types and its columns the observed statuses, both ascending. |
| Dashboard.CrossTabCells | dashboard.py:210 | The cross-tab is dense: one cell per type and status, each the count of rows with that pair. |
| Dashboard.CellCounts | dashboard.py:210 | A cell is non-negative, and zero exactly when no row has that type and status (fill_value=0). |
| Dashboard.CrossTabTotal | dashboard.py:210 | The cells add up to total_sessions. |
| Dashboard.RevenueByTherapistFacts | dashboard.py:215 | Revenue by therapist lists each therapist with a Completed row once, with that therapist's Completed revenue. It is sorted non-increasing and adds up to total revenue. |
| Dashboard.EmptySelection | dashboard.py:124-139 | An empty selection gives zero counts, rates and revenue and empty tables. |
| Dashboard.ThreeCompletedOneNoShow | dashboard.py:124-139 | Three Completed sessions of $100, $150 and $200 plus one no-show give $450 revenue, a 75% completion rate and a 25% no-show rate. |
| Dashboard.OneMonthOneBucket | dashboard.py:188-189 | Two Completed sessions in the same month form one monthly bucket holding their sum. |

## Left out

- The random calls and their distributions (the 0.75/0.15/0.08/0.02 status weights). The choices are inputs, one `Draw` per candidate. The model constrains them only to the ranges the calls return.
- The draws a skipped weekend candidate would still consume, and the order in which the random streams are read: the model has no random state.
- The `datetime.now()` defaults for the date range. They read the wall clock; the model takes both dates as parameters.
- Generator.GenerateSessions: requires start ≤ end when num_sessions > 0. With start after end and at least one candidate, the source's `random.randint(0, negative)` raises, and the model does not model that exception. With num_sessions ≤ 0 the loop never runs and the source returns an empty table for any range, as the model does for num_sessions = 0.
- The `num_sessions=500` default of `generate_sessions`: the model takes the count as an explicit natural-number argument.
- Time of day in the date range: dates are whole days. The source's `(end_date - start_date).days` rounds down when end's time of day is earlier than start's; the model takes the plain day difference.
- Dates.ValidDate: has no year-9999 upper bound, the limit of Python's `datetime`.
- Floating-point money, `round(amount, 2)`, and the `:.1f` and `:,.2f` display formats. Money is exact integer cents, and rates are exact fractions.
- The `"%Y-%m-%d"` text of a session date. Dates stay structured values throughout.
- Dashboard.StatusCounts, Dashboard.RevenueByTherapist: pandas does not specify how `value_counts` and `sort_values` order equal totals. The model breaks ties by a stable insertion sort over ascending keys, and its lemmas state only what holds under any tie order.
- Dashboard.TherapistSummary: `count` of `session_id` skips missing ids. Every modelled row has an id, so the count is the number of rows.
- Weekly and monthly period keys are held as the start date of the period. The model does not produce the pandas `Period` string that the chart axis shows.
- Reading the CSV file in `load_data`, the CSV, JSON, Excel and PDF writers, and the PDF report layout. These are file I/O through pandas, openpyxl and FPDF.
- The Streamlit widgets and the Plotly charts (UI), and `setup.py`, which only runs pip and the generator script.
