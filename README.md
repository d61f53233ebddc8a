# Nova analytics core in Dafny

This project models the computational core of the Nova event-analytics
dashboard and proves properties of it. The core has four parts.

- **Forecasting and analysis** (`frontend/src/utils/predictions.js`), in module
  `Predictions`:
  - the least-squares regression of a monthly series;
  - the forecast of the coming months, with month keys, labels and trend
    classification;
  - the weekday analysis of events;
  - the seasonal analysis of monthly data.

  JavaScript's numbers are exact `real`s, and `Math.round` is `⌊x + 0.5⌋`.
  Both sorts go through `StableSort`, a stable insertion sort by descending key
  that stands for `Array.prototype.sort`.
- **Response cache** (`frontend/src/utils/cache.js`), in module `Cache`.
  `Cache.Store` holds the `localStorage` table as a map field. Its `Set`, `Get`
  and `Clear` methods update that table. The clock reading and the storage
  calls that throw are parameters.
- **CSV export** (`frontend/src/utils/csvExport.js`), in module `CsvExport`:
  - the text `exportToCSV` builds, and a reader that parses that text back;
  - the four row mappers;
  - the file-name sanitiser.
- **Weekly sales report** (`backend/weekly_report.py`), in module `WeeklyReport`:
  - week start and week range;
  - the report that files each event under the Monday of its week.

  A date is identified with its proleptic Gregorian ordinal, as
  `date.toordinal()` numbers it. Revenue is kept in whole cents.

Supporting modules:
- `Text`: decimal rendering and reading, padding, `split` and `join`, with
  their round trips.
- `Wrappers`: `Option`.

Every loop of the source is a method with loop invariants. Each method is
proved equal to a specification function, and the properties are proved as
lemmas about that function. The loops are:
- the regression sums;
- the month carry;
- the forecast, weekday and season loops;
- the CSV row loop;
- the cache-clearing loop;
- the report's event and attendee loops.

Where the code and its description differ, the model follows the code:
- `analyzeBestDays` throws a `TypeError` when an event's start does not parse
  as a date, because `dayStats[NaN]` is undefined. The model returns `None`
  there.
- `analyzeBestDays` counts an event whose attendee count is `null`, because
  only `undefined` is excluded.
- `analyzeBestDays` returns an empty list, not seven entries, for an empty
  input.

## Model

| member | source | states |
|---|---|---|
| Predictions.LinearRegression | frontend/src/utils/predictions.js:6-23 | The one-pass accumulation of Σi, Σv, Σi·v and Σi² yields the closed-form least-squares line, and (0, 0) for fewer than two points |
| Predictions.DenominatorPositive | frontend/src/utils/predictions.js:19 | For n ≥ 2 the denominator n·Σi² − (Σi)² is positive, so the regression never divides by zero |
| Predictions.SumXClosedForm | frontend/src/utils/predictions.js:13 | Σi over 0..n−1 is n(n−1)/2 |
| Predictions.SumX2ClosedForm | frontend/src/utils/predictions.js:16 | Σi² over 0..n−1 is (n−1)n(2n−1)/6 |
| Predictions.FitExact | frontend/src/utils/predictions.js:6-23 | Points that lie exactly on a line a·i + b are fitted by exactly that line |
| Predictions.Round | frontend/src/utils/predictions.js:58-64 | `Math.round` returns the integer within one half of its argument, with halves rounded up |
| Predictions.Classify | frontend/src/utils/predictions.js:45-48 | Growing iff slope > threshold, declining iff slope < −threshold, stable otherwise (both directions) |
| Predictions.AttendeeSeries | frontend/src/utils/predictions.js:32-34 | One value per month, `attendees` or 0 when missing |
| Predictions.RevenueSeries | frontend/src/utils/predictions.js:36-38 | One value per month, `revenue` or 0 when missing |
| Predictions.MonthKeyRoundTrip | frontend/src/utils/predictions.js:74 | A rendered `YYYY-MM` key reads back as the year and month it was made from |
| Predictions.NextMonth | frontend/src/utils/predictions.js:67-72 | The next month is a calendar month whose month index is one more |
| Predictions.MonthsLater | frontend/src/utils/predictions.js:67-72 | Adding i months with year carry yields a calendar month i month-indexes later |
| Predictions.IndexDetermines | frontend/src/utils/predictions.js:67-72 | Two calendar months with the same month index are the same month, so the carry is unique |
| Predictions.AddMonths | frontend/src/utils/predictions.js:67-72 | The `while (nextMonth > 12)` carry loop computes the month i months later |
| Predictions.MonthAbbreviation | frontend/src/utils/predictions.js:75 | The short English month name has three letters |
| Predictions.LastTwo | frontend/src/utils/predictions.js:79 | `slice(-2)` keeps the last two characters, or all of a shorter string |
| Predictions.LastMonth | frontend/src/utils/predictions.js:52-53 | The last month key splits into a calendar month |
| Predictions.Tabulate | frontend/src/utils/predictions.js:51-83 | The prediction list has one entry per step |
| Predictions.TabulateAt | frontend/src/utils/predictions.js:55-83 | Step i's entry sits at position i − 1 |
| Predictions.ForecastOf | frontend/src/utils/predictions.js:26-91 | No forecast iff fewer than 3 months; otherwise `monthsAhead` predictions, the growth rate is the attendee slope, attendees are growing iff that slope is above 5 and declining iff below −5, and revenue likewise with 50 |
| Predictions.PredictNextMonths | frontend/src/utils/predictions.js:26-91 | `predictNextMonths` returns the forecast specified by `ForecastOf` |
| Predictions.ProjectMonths | frontend/src/utils/predictions.js:55-83 | The prediction loop pushes exactly the tabulated predictions for steps 1..monthsAhead |
| Predictions.ForecastEntry | frontend/src/utils/predictions.js:56-82 | Prediction k uses index n + k on both lines, clamped at 0, for month k + 1 after the last |
| Predictions.ForecastMonths | frontend/src/utils/predictions.js:66-78 | Every predicted key is a `YYYY-MM` calendar month k + 1 months after the last observed one |
| Predictions.ForecastMonthsIncrease | frontend/src/utils/predictions.js:66-78 | Predicted months strictly increase |
| Predictions.ForecastOfLinearAttendees | frontend/src/utils/predictions.js:41-64 | On exactly linear attendees the growth rate is the line's slope, the trend is its classification and each prediction is the clamped, rounded line |
| Predictions.DayName | frontend/src/utils/predictions.js:97-105 | Weekday names are full English names |
| Predictions.DayRankOfName | frontend/src/utils/predictions.js:97-105 | Each weekday name maps back to its position, Sunday first |
| Predictions.InitialDayStats | frontend/src/utils/predictions.js:97-105 | Seven zeroed accumulators, Sunday first |
| Predictions.DayTally | frontend/src/utils/predictions.js:107-114 | The tally, when it succeeds, has seven accumulators |
| Predictions.DayTallyFails | frontend/src/utils/predictions.js:108-112 | The loop throws iff some counted event's start is not a date |
| Predictions.DayTallyStaysFailed | frontend/src/utils/predictions.js:107-114 | Once the loop has thrown, the outcome is a throw |
| Predictions.DayTallyContents | frontend/src/utils/predictions.js:107-114 | Each weekday's count and total are the number and attendee sum of counted events on that weekday |
| Predictions.DayTallyCountSum | frontend/src/utils/predictions.js:107-114 | The seven counts sum to the number of counted events |
| Predictions.Average | frontend/src/utils/predictions.js:120 | The rounded mean, within one half of total/count, and 0 for no events |
| Predictions.DayAverages | frontend/src/utils/predictions.js:117-121 | Each accumulator is kept with its rounded average, in weekday order |
| Predictions.AnalyzeBestDays | frontend/src/utils/predictions.js:94-125 | `analyzeBestDays` returns `BestDaysOf`: [] for no events, a throw for an unparsable date, else the sorted averages |
| Predictions.BestDaysResult | frontend/src/utils/predictions.js:116-124 | Seven entries, a permutation of the averages, sorted descending by average with ties in weekday order, counts summing to the counted events |
| Predictions.AveragesCountSum | frontend/src/utils/predictions.js:117-121 | Computing averages keeps the counts |
| Predictions.SeasonIndexAt | frontend/src/utils/predictions.js:133-138 | Seasons are listed Winter, Spring, Summer, Fall |
| Predictions.InSeasonIff | frontend/src/utils/predictions.js:133-145 | `months.includes(month)` holds iff the month falls in the season's calendar range |
| Predictions.SeasonPartition | frontend/src/utils/predictions.js:133-145 | A month is in some season iff it is 1..12, and then in exactly one |
| Predictions.SecondField | frontend/src/utils/predictions.js:141 | The second `split('-')` field holds no `-` |
| Predictions.ParseIntPrefix | frontend/src/utils/predictions.js:142 | `parseInt` reads a leading run of decimal digits as its decimal value |
| Predictions.MonthNumberOfKey | frontend/src/utils/predictions.js:141-142 | The month read from a `YYYY-MM` key is its month |
| Predictions.SeasonTally | frontend/src/utils/predictions.js:140-151 | The tally always has four seasons |
| Predictions.SeasonTallyContents | frontend/src/utils/predictions.js:140-151 | Each season's sums and count are over exactly the months whose month number, read from the key alone, is in it, whatever the year |
| Predictions.SeasonCountSum | frontend/src/utils/predictions.js:140-151 | The four counts sum to the number of months with a calendar month 1..12 |
| Predictions.Insights | frontend/src/utils/predictions.js:153-158 | `Object.entries(seasonalData).map` yields four insights |
| Predictions.SeasonalityOf | frontend/src/utils/predictions.js:128-162 | Insufficient data iff fewer than four months |
| Predictions.AddToBuckets | frontend/src/utils/predictions.js:144-150 | The loop over the four seasons adds the month's figures to the seasons containing its month number, as `AddToSeasons` states, and leaves the others alone |
| Predictions.TallySeasons | frontend/src/utils/predictions.js:140-151 | The `forEach` over months computes the season tally |
| Predictions.AnalyzeSeasonality | frontend/src/utils/predictions.js:128-162 | `analyzeSeasonality` returns `SeasonalityOf` |
| Predictions.SeasonalityResult | frontend/src/utils/predictions.js:153-161 | Four insights, a permutation of the per-season insights, sorted descending by average attendees with ties in season order |
| Predictions.SeasonInsight | frontend/src/utils/predictions.js:153-158 | Each season's insight is the rounded average of that season's sums |
| StableSort.SortDescending | frontend/src/utils/predictions.js:122 | Sorting keeps length and is a permutation |
| StableSort.SortStable | frontend/src/utils/predictions.js:159 | The sort is descending by key, and equal keys keep their input order |
| StableSort.StablyDescendingIsDescending | frontend/src/utils/predictions.js:122 | A stably sorted sequence is sorted by key |
| StableSort.SortSum | frontend/src/utils/predictions.js:122 | Sorting keeps every sum over the entries |
| Text.NatToStringRoundTrip | frontend/src/utils/predictions.js:74 | `String(n)` reads back as n |
| Text.ZeroPadRoundTrip | frontend/src/utils/predictions.js:74 | `padStart(w, '0')` of a number reads back as that number |
| Text.ZeroPadTwoDigits | frontend/src/utils/predictions.js:74 | A month pads to exactly two digits |
| Text.ZeroPadFourDigits | backend/weekly_report.py:53 | A year below 10000 pads to exactly four digits |
| Text.Split | frontend/src/utils/predictions.js:141 | `split` yields at least one field |
| Text.SplitJoin | frontend/src/utils/csvExport.js:16 | Splitting a join on the separator recovers the parts when no part holds it |
| Text.JoinAvoids | frontend/src/utils/csvExport.js:30 | A join holds a character other than the separator only where a part holds it |
| Cache.Store.constructor | frontend/src/utils/cache.js:7 | The cache starts over the given table |
| Cache.Store.Set | frontend/src/utils/cache.js:8-18 | `set` stores the data with the current time, or leaves the table when the write throws |
| Cache.Store.Get | frontend/src/utils/cache.js:20-39 | `get` returns `Lookup` and removes the key exactly when its entry is expired; when `getItem` or `removeItem` throws it returns `null` and leaves the table as it was |
| Cache.Store.Clear | frontend/src/utils/cache.js:41-57 | Without a throw the key loop leaves exactly the table `Cleared` describes; a throw leaves a given key in place, or stops the loop with the throwing `nova_` key still stored, every other key kept and only `nova_` keys removed |
| Cache.SetThenGet | frontend/src/utils/cache.js:8-34 | After a set, a get returns the data iff at most five minutes have passed, and null afterwards |
| Cache.SetFrame | frontend/src/utils/cache.js:8-18 | `set` changes no other key, and a failed set changes nothing |
| Cache.GetAbsent | frontend/src/utils/cache.js:22-23 | A missing key reads as null and changes nothing |
| Cache.GetFresh | frontend/src/utils/cache.js:25-34 | A fresh entry returns its data and is kept |
| Cache.GetExpired | frontend/src/utils/cache.js:29-32 | An expired entry reads as null, is removed alone, and stays null |
| Cache.GetUnreadable | frontend/src/utils/cache.js:35-38 | Unparsable text reads as null and is kept |
| Cache.GetIdempotent | frontend/src/utils/cache.js:20-39 | Two gets at the same moment answer the same and leave the same table |
| Cache.ClearOne | frontend/src/utils/cache.js:43-44 | `clear(key)` removes that key and nothing else |
| Cache.ClearAll | frontend/src/utils/cache.js:45-52 | `clear()` removes exactly the `nova_` keys, keeps the rest unchanged, and is idempotent |
| Cache.ClearEmptyKey | frontend/src/utils/cache.js:43 | The empty key is falsy, so `clear('')` clears every `nova_` key |
| CsvExport.Keys | frontend/src/utils/csvExport.js:12 | `Object.keys` lists the row's keys in order |
| CsvExport.EscapeLength | frontend/src/utils/csvExport.js:23 | Escaping adds exactly one character per double quote in the value |
| CsvExport.FieldBodyOfEscape | frontend/src/utils/csvExport.js:23-24 | A CSV reader recovers the value from its escaped body and the closing quote |
| CsvExport.QuotedLineIsJoin | frontend/src/utils/csvExport.js:20-26 | Joining the quoted values with `,` is the quoted line |
| CsvExport.Cells | frontend/src/utils/csvExport.js:20-25 | One cell per header |
| CsvExport.ExportToCsv | frontend/src/utils/csvExport.js:5-30 | The header line, the row loop and the join produce `CsvOf`, and nothing for no data |
| CsvExport.ReadFieldsOfLine | frontend/src/utils/csvExport.js:20-26 | A CSV reader recovers the values of a quoted line |
| CsvExport.ReadRecordsOfLines | frontend/src/utils/csvExport.js:19-30 | A CSV reader recovers every row from the newline-joined lines |
| CsvExport.CsvRoundTrip | frontend/src/utils/csvExport.js:5-30 | With plain header names, reading the exported text gives back the headers and every row's `String` of each value under them |
| CsvExport.EmptyExport | frontend/src/utils/csvExport.js:6-9 | Nothing is exported iff there is no data |
| CsvExport.JoinLineCount | frontend/src/utils/csvExport.js:30 | Joined lines hold one fewer newline than there are lines |
| CsvExport.RevenueText | frontend/src/utils/csvExport.js:49 | "$0" for a falsy revenue, otherwise "$" and its text |
| CsvExport.Zip | frontend/src/utils/csvExport.js:45-50 | A mapper's row has exactly the header keys, in order |
| CsvExport.GetZip | frontend/src/utils/csvExport.js:21 | Under distinct headers, each header reads its own value |
| CsvExport.ZipCells | frontend/src/utils/csvExport.js:20-25 | A mapper row's cells are the `String`s of its values |
| CsvExport.MonthlyValues | frontend/src/utils/csvExport.js:45-50 | One value per monthly header |
| CsvExport.CustomerValues | frontend/src/utils/csvExport.js:55-60 | One value per customer header; the rank is the position plus one |
| CsvExport.EventValues | frontend/src/utils/csvExport.js:65-72 | One value per event header; "Is Free" is Yes iff `is_free` is truthy and No iff falsy |
| CsvExport.AttendeeValues | frontend/src/utils/csvExport.js:77-84 | One value per attendee header |
| CsvExport.Tabulated | frontend/src/utils/csvExport.js:45-50 | Each input item becomes the row that zips the headers with its values |
| CsvExport.MonthlyRows | frontend/src/utils/csvExport.js:44-51 | One value list per monthly trend, in order |
| CsvExport.CustomerRows | frontend/src/utils/csvExport.js:54-61 | One value list per customer, ranked by position |
| CsvExport.EventRows | frontend/src/utils/csvExport.js:64-73 | One value list per event, in order |
| CsvExport.AttendeeRows | frontend/src/utils/csvExport.js:76-84 | One value list per attendee, in order |
| CsvExport.SanitizeProperties | frontend/src/utils/csvExport.js:85 | The safe name keeps the length, holds only a-z, 0-9 and `-`, has `-` exactly where the name was not ASCII alphanumeric, and is idempotent |
| CsvExport.StringTable | frontend/src/utils/csvExport.js:23 | The `String` of each value of each row |
| CsvExport.TabulatedRoundTrip | frontend/src/utils/csvExport.js:44-87 | A mapper's export reads back as its headers and the `String`s of its values |
| CsvExport.MonthlyExportRoundTrip | frontend/src/utils/csvExport.js:44-52 | The download is `nova-monthly-trends.csv`, has no text iff there are no trends, and reads back as the monthly headers and each trend's values as strings |
| CsvExport.CustomerExportRoundTrip | frontend/src/utils/csvExport.js:54-62 | The download is `nova-top-customers.csv`, has no text iff there are no customers, and reads back as the customer headers and each ranked customer's values as strings |
| CsvExport.EventExportRoundTrip | frontend/src/utils/csvExport.js:64-74 | The download is `nova-events.csv`, has no text iff there are no events, and reads back as the event headers and each event's values as strings |
| CsvExport.AttendeeExportRoundTrip | frontend/src/utils/csvExport.js:76-87 | The download is `nova-attendees-` plus the sanitised event name plus `.csv`, has no text iff there are no attendees, and reads back as the attendee headers and each attendee's values as strings |
| CsvExport.MonthlyHeadersPlain | frontend/src/utils/csvExport.js:46-49 | The monthly headers are distinct and hold no `,` or newline |
| CsvExport.CustomerHeadersPlain | frontend/src/utils/csvExport.js:56-59 | The customer headers are distinct and hold no `,` or newline |
| CsvExport.EventHeadersPlain | frontend/src/utils/csvExport.js:66-71 | The event headers are distinct and hold no `,` or newline |
| CsvExport.AttendeeHeadersPlain | frontend/src/utils/csvExport.js:78-83 | The attendee headers are distinct and hold no `,` or newline |
| WeeklyReport.ToOrdinal | backend/weekly_report.py:36-37 | A valid date's ordinal is at least 1 |
| WeeklyReport.MaxOrdinalIsLastDay | backend/weekly_report.py:14 | 9999-12-31 is day 3652059 |
| WeeklyReport.OrdinalNextDay | backend/weekly_report.py:10 | The next day of a month has the next ordinal |
| WeeklyReport.OrdinalNextMonth | backend/weekly_report.py:10 | The first of the next month follows the last of a month |
| WeeklyReport.OrdinalNextYear | backend/weekly_report.py:10 | January 1 follows December 31 |
| WeeklyReport.YearLength | backend/weekly_report.py:10 | A year has 366 days iff it is a leap year, else 365 |
| WeeklyReport.Weekday | backend/weekly_report.py:9 | `weekday()` is in 0..6 |
| WeeklyReport.FirstDayIsMonday | backend/weekly_report.py:9 | Day 1, 0001-01-01, is a Monday |
| WeeklyReport.WeekStart | backend/weekly_report.py:7-10 | The week start is a Monday, on or before the date, fewer than seven days before it, and never before day 1 |
| WeeklyReport.WeekStartIff | backend/weekly_report.py:7-10 | The week start is the unique Monday whose seven-day span holds the date (both directions) |
| WeeklyReport.WeekStartIdempotent | backend/weekly_report.py:7-10 | The week start of a week start is itself |
| WeeklyReport.WeekRange | backend/weekly_report.py:12-15 | The range ends six days after its start, and it fails exactly when that day is past 9999-12-31 |
| WeeklyReport.WeekRangeIsWeek | backend/weekly_report.py:12-15 | From a Monday the range ends on a Sunday and holds exactly the days whose week start is that Monday |
| WeeklyReport.LastWeekOverflows | backend/weekly_report.py:14 | Only the week from Monday 9999-12-27 has no range |
| WeeklyReport.FormatDateLength | backend/weekly_report.py:53 | A rendered date has ten characters |
| WeeklyReport.FormatDateRoundTrip | backend/weekly_report.py:53 | A rendered `%Y-%m-%d` date reads back as that date |
| WeeklyReport.EntryOf | backend/weekly_report.py:40-56 | Tickets sold is the number of attendees, and an event without an attendee list sells 0 tickets for 0 revenue |
| WeeklyReport.TotalRevenue | backend/weekly_report.py:44-49 | The attendee loop sums the gross values, missing ones as 0 |
| WeeklyReport.GenerateWeeklyReport | backend/weekly_report.py:17-58 | The event loop builds the report `ReportOf` specifies |
| WeeklyReport.ReportOfStep | backend/weekly_report.py:51-56 | Each event appends its line to its week's list, creating the list when absent |
| WeeklyReport.ReportBuckets | backend/weekly_report.py:28-56 | A week is a key iff some event falls in it, and its list is those events' lines in input order |
| WeeklyReport.EventFiled | backend/weekly_report.py:37-56 | Every event's line is in the list of its own week |
| WeeklyReport.WeekKeys | backend/weekly_report.py:28-56 | The listed weeks are distinct and include every event's week |
| WeeklyReport.WeekKeysAreEventWeeks | backend/weekly_report.py:28-56 | A week is listed iff some event falls in it |
| WeeklyReport.WeekKeysAreReportWeeks | backend/weekly_report.py:28-56 | The listed weeks are exactly the report's weeks |
| WeeklyReport.ReportSize | backend/weekly_report.py:28-56 | The week lists together hold exactly one line per event |
| WeeklyReport.CentsSumBounds | backend/weekly_report.py:44-49 | Revenue is non-negative for non-negative prices, and 0 when no attendee has a gross value |

## Left out

- Floating point: JavaScript numbers and Python floats are exact reals or integers here. NaN and Infinity do not arise.
- `!monthlyTrends` and `!events`: `null` or `undefined` inputs are not modelled. The inputs are sequences.
- `new Date(event.start).getDay()` in local time is the parameter `dayOf`. `None` stands for an Invalid Date. Date parsing and time zones are not modelled.
- `toLocaleString('en-US', { month: 'short' })` is a fixed table of English abbreviations.
- Predictions.PredictNextMonths: requires the last month key, when the history is long enough, to be digits, `-`, digits, with a month of 1 to 12. The source also runs on other keys: `split('-').map(Number)` ignores a third field ("2024-03-15" is March), `Number` trims spaces, a month of 0 or above 12 is carried by the `while` loop ("2024-00" forecasts "2024-01", "2024-13" forecasts "2025-02"), and a non-numeric field gives `NaN` in the key ("2024-ab" gives "2024-NaN"). The model does not cover those keys. The only producer of the keys, `strftime('%Y-%m')` at backend/app.py:205, always writes a key the requires accepts.
- `String(val)` is modelled for `undefined`, `null`, booleans, integers and strings. Non-integer numbers, objects and arrays are not modelled.
- `Object.keys` order is the row's field order. JavaScript lists integer-like keys first; the mappers' keys contain none.
- The sanitiser works on characters. UTF-16 surrogate pairs count as two code units in the source.
- The `Blob`, the object URL, the anchor element, `alert` and the click are left out. The model returns the text and the file name as a `Download` value, or none for empty data.
- `localStorage`, `JSON.stringify`/`JSON.parse` and `Date.now()` are modelled as follows:
  - the stored table is a map from keys to parsed slots;
  - the clock is the `now` parameter;
  - a refused write in `set`, and a throwing `getItem` or `removeItem` in `get`, are the `fails` parameter;
  - the keys on which `removeItem` throws in `clear` are the `throwing` parameter;
  - `console.warn` is left out.
- WeeklyReport.GenerateWeeklyReport: `gross_revenue` is the exact total in integer cents. The source adds `cents / 100.0` as floats and rounds to two decimals.
- `datetime.fromisoformat` is not modelled. An event carries its already-parsed local calendar date. A string that does not parse raises in the source.
- The `name.text`, `start.local` and `costs.gross.value` lookups are not modelled. A missing `name`, `start` or `id` raises `KeyError` in the source. A missing `costs`, `gross` or `value` counts as 0 in both.
- WeeklyReport.FormatDate: `%Y` is the four-digit zero-padded year. Some C libraries print years below 1000 without padding.
- The report is a plain map. Python's `defaultdict` also answers `[]` for weeks that were never filled.

## Findings

No defect in the source was established. The differences between the code
and its description are listed at the top of this file.
