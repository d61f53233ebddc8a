/**
 * The back end's weekly sales report: each event is filed under the Monday
 * of its week, with its ticket count and gross revenue.  A calendar date is
 * identified with its proleptic Gregorian ordinal, as Python's
 * `date.toordinal()` numbers it (day 1 is Monday 0001-01-01), so day
 * arithmetic is integer arithmetic.  Revenue is kept in whole cents.
 */
module WeeklyReport {
  import opened Wrappers
  import opened Text

  // ---------------------------------------------------------------------
  // Calendar
  // ---------------------------------------------------------------------

  /** A calendar date, as Python's `date`. */
  datatype Date = Date(year: nat, month: nat, day: nat)

  predicate IsLeap(year: int) {
    year % 4 == 0 && (year % 100 != 0 || year % 400 == 0)
  }

  function DaysInMonth(year: int, month: int): int
    requires 1 <= month <= 12
  {
    if month == 2 then (if IsLeap(year) then 29 else 28)
    else if month == 4 || month == 6 || month == 9 || month == 11 then 30
    else 31
  }

  /** A date Python can represent: years 1 to 9999. */
  predicate Valid(d: Date) {
    1 <= d.year <= 9999 && 1 <= d.month <= 12 && 1 <= d.day <= DaysInMonth(d.year, d.month)
  }

  /** The dates Python's `date` can hold. */
  type CivilDate = d: Date | Valid(d) witness Date(1, 1, 1)

  /** Days in the years before `year`. */
  function DaysBeforeYear(year: int): int
    requires year >= 1
  {
    var y := year - 1;
    y * 365 + y / 4 - y / 100 + y / 400
  }

  /** Days in the months of a common year before `month`. */
  function CommonDaysBeforeMonth(month: int): int
    requires 1 <= month <= 12
  {
    if month == 1 then 0 else if month == 2 then 31 else if month == 3 then 59
    else if month == 4 then 90 else if month == 5 then 120 else if month == 6 then 151
    else if month == 7 then 181 else if month == 8 then 212 else if month == 9 then 243
    else if month == 10 then 273 else if month == 11 then 304 else 334
  }

  function DaysBeforeMonth(year: int, month: int): int
    requires 1 <= month <= 12
  {
    CommonDaysBeforeMonth(month) + if month > 2 && IsLeap(year) then 1 else 0
  }

  /** `date.toordinal()`. */
  function ToOrdinal(d: CivilDate): (o: int)
    ensures o >= 1
  {
    DaysBeforeYear(d.year) + DaysBeforeMonth(d.year, d.month) + d.day
  }

  /** The ordinal of `date.max`, 9999-12-31. */
  const MaxOrdinal: int := 3652059

  lemma MaxOrdinalIsLastDay()
    ensures Valid(Date(9999, 12, 31)) && ToOrdinal(Date(9999, 12, 31)) == MaxOrdinal
  {
  }

  /** The next day of the same month, or the first of the next month, has the next ordinal. */
  lemma OrdinalNextDay(d: Date)
    requires Valid(d) && d.day < DaysInMonth(d.year, d.month)
    ensures Valid(Date(d.year, d.month, d.day + 1)) && ToOrdinal(Date(d.year, d.month, d.day + 1)) == ToOrdinal(d) + 1
  {
  }

  lemma OrdinalNextMonth(d: Date)
    requires Valid(d) && d.month < 12 && d.day == DaysInMonth(d.year, d.month)
    ensures Valid(Date(d.year, d.month + 1, 1)) && ToOrdinal(Date(d.year, d.month + 1, 1)) == ToOrdinal(d) + 1
  {
  }

  lemma OrdinalNextYear(d: Date)
    requires Valid(d) && d.year < 9999 && d.month == 12 && d.day == 31
    ensures Valid(Date(d.year + 1, 1, 1)) && ToOrdinal(Date(d.year + 1, 1, 1)) == ToOrdinal(d) + 1
  {
    YearLength(d.year);
  }

  /** A year has 366 days when it is a leap year and 365 otherwise. */
  lemma YearLength(year: int)
    requires year >= 1
    ensures DaysBeforeYear(year + 1) == DaysBeforeYear(year) + if IsLeap(year) then 366 else 365
  {
    var y := year - 1;
    QuotientStep4(y);
    QuotientStep100(y);
    QuotientStep400(y);
    DivisibilityChain(year);
    assert DaysBeforeYear(year + 1) == year * 365 + year / 4 - year / 100 + year / 400;
    assert DaysBeforeYear(year) == y * 365 + y / 4 - y / 100 + y / 400;
  }

  /** Multiples of 400 are multiples of 100, which are multiples of 4. */
  lemma DivisibilityChain(x: int)
    ensures x % 400 == 0 ==> x % 100 == 0
    ensures x % 100 == 0 ==> x % 4 == 0
  {
  }

  lemma QuotientStep4(y: int)
    requires y >= 0
    ensures (y + 1) / 4 == y / 4 + if (y + 1) % 4 == 0 then 1 else 0
  {
  }

  lemma QuotientStep100(y: int)
    requires y >= 0
    ensures (y + 1) / 100 == y / 100 + if (y + 1) % 100 == 0 then 1 else 0
  {
  }

  lemma QuotientStep400(y: int)
    requires y >= 0
    ensures (y + 1) / 400 == y / 400 + if (y + 1) % 400 == 0 then 1 else 0
  {
  }

  /** `date.weekday()`: 0 is Monday, 6 is Sunday. */
  function Weekday(ordinal: int): (w: int)
    ensures 0 <= w < 7
  {
    (ordinal + 6) % 7
  }

  /** The ordinal of 0001-01-01 is a Monday, as Python's calendar has it. */
  lemma FirstDayIsMonday()
    ensures ToOrdinal(Date(1, 1, 1)) == 1 && Weekday(1) == 0
  {
    assert DaysBeforeYear(1) == 0;
    assert DaysBeforeMonth(1, 1) == 0;
    assert 7 % 7 == 0;
  }

  // ---------------------------------------------------------------------
  // get_week_start, get_week_range
  // ---------------------------------------------------------------------

  /**
   * `get_week_start(date)`: the Monday on or before the date, fewer than
   * seven days before it and never before day 1.
   */
  function WeekStart(ordinal: int): (start: int)
    requires ordinal >= 1
    ensures Weekday(start) == 0
    ensures 1 <= start <= ordinal < start + 7
  {
    ordinal - Weekday(ordinal)
  }

  /** The week start is the one Monday with the day in its seven-day span. */
  lemma WeekStartIff(ordinal: int, start: int)
    requires ordinal >= 1
    ensures WeekStart(ordinal) == start <==> Weekday(start) == 0 && start <= ordinal < start + 7
  {
    if Weekday(start) == 0 && start <= ordinal < start + 7 {
      var s := WeekStart(ordinal);
      assert (s - start) % 7 == 0 by {
        assert (s + 6) % 7 == 0 && (start + 6) % 7 == 0;
      }
    }
  }

  /** The week start of a Monday is that Monday, so `get_week_start` is idempotent. */
  lemma WeekStartIdempotent(ordinal: int)
    requires ordinal >= 1
    ensures WeekStart(WeekStart(ordinal)) == WeekStart(ordinal)
  {
  }

  /**
   * `get_week_range(week_start)`: the start and the day six days later;
   * `None` where Python raises `OverflowError` because that day is past
   * 9999-12-31.
   */
  function WeekRange(weekStart: int): (r: Option<(int, int)>)
    ensures r.Some? <==> weekStart + 6 <= MaxOrdinal
    ensures r.Some? ==> r.value.1 - r.value.0 == 6
  {
    if weekStart + 6 <= MaxOrdinal then Some((weekStart, weekStart + 6)) else None
  }

  /**
   * From a Monday, the range ends on a Sunday and holds exactly the seven
   * days whose week start is that Monday.
   */
  lemma WeekRangeIsWeek(weekStart: int, ordinal: int)
    requires weekStart >= 1 && Weekday(weekStart) == 0 && weekStart + 6 <= MaxOrdinal
    requires ordinal >= 1
    ensures Weekday(WeekRange(weekStart).value.1) == 6
    ensures WeekRange(weekStart).value.0 <= ordinal <= WeekRange(weekStart).value.1 <==> WeekStart(ordinal) == weekStart
  {
    WeekStartIff(ordinal, weekStart);
  }

  /** Of all weeks Python can represent, only the last (from Monday 9999-12-27) has no range. */
  lemma LastWeekOverflows(weekStart: int)
    requires 1 <= weekStart <= MaxOrdinal && Weekday(weekStart) == 0
    ensures WeekRange(weekStart).None? <==> weekStart == MaxOrdinal - 4
  {
  }

  // ---------------------------------------------------------------------
  // Rendering a date
  // ---------------------------------------------------------------------

  /** `date.strftime('%Y-%m-%d')`. */
  function FormatDate(d: Date): string {
    ZeroPad(d.year, 4) + "-" + ZeroPad(d.month, 2) + "-" + ZeroPad(d.day, 2)
  }

  /** Reads `Y-M-D` with three decimal fields back into a date; `None` for any other shape. */
  function ParseDate(s: string): Option<Date> {
    var parts := Split(s, '-');
    if |parts| == 3 && AllDigits(parts[0]) && AllDigits(parts[1]) && AllDigits(parts[2]) then
      Some(Date(DecimalValue(parts[0]), DecimalValue(parts[1]), DecimalValue(parts[2])))
    else None
  }

  /** A valid date renders in ten characters. */
  lemma FormatDateLength(d: Date)
    requires Valid(d)
    ensures |FormatDate(d)| == 10
  {
    ZeroPadFourDigits(d.year);
    ZeroPadTwoDigits(d.month);
    ZeroPadTwoDigits(d.day);
  }

  /** The rendered date reads back as the same date. */
  lemma FormatDateRoundTrip(d: Date)
    ensures ParseDate(FormatDate(d)) == Some(d)
  {
    var y, m, day := ZeroPad(d.year, 4), ZeroPad(d.month, 2), ZeroPad(d.day, 2);
    ParseDigitFields(y, m, day);
    ZeroPadRoundTrip(d.year, 4);
    ZeroPadRoundTrip(d.month, 2);
    ZeroPadRoundTrip(d.day, 2);
  }

  /** Three digit fields joined by `-` read back field by field. */
  lemma ParseDigitFields(y: string, m: string, d: string)
    requires AllDigits(y) && AllDigits(m) && AllDigits(d)
    ensures ParseDate(y + "-" + m + "-" + d) == Some(Date(DecimalValue(y), DecimalValue(m), DecimalValue(d)))
  {
    var s := y + "-" + m + "-" + d;
    assert Split(s, '-') == [y, m, d] by {
      var parts := [y, m, d];
      JoinThree(y, m, d);
      forall i | 0 <= i < 3 ensures '-' !in parts[i] {
        assert AllDigits(parts[i]);
      }
      SplitJoin(parts, '-');
    }
    ParseFields(s, y, m, d);
  }

  lemma JoinThree(y: string, m: string, d: string)
    ensures Join([y, m, d], '-') == y + "-" + m + "-" + d
  {
    var parts := [y, m, d];
    assert parts[1..][1..] == [d];
    assert Join(parts[1..], '-') == m + "-" + d;
  }

  lemma ParseFields(s: string, y: string, m: string, d: string)
    requires Split(s, '-') == [y, m, d]
    requires AllDigits(y) && AllDigits(m) && AllDigits(d)
    ensures ParseDate(s) == Some(Date(DecimalValue(y), DecimalValue(m), DecimalValue(d)))
  {
  }

  // ---------------------------------------------------------------------
  // generate_weekly_report
  // ---------------------------------------------------------------------

  /** An event: its id, its name's text and the calendar date of its local start. */
  datatype Event = Event(id: string, name: string, date: CivilDate)

  /** An attendee: `costs.gross.value` in cents, `None` when any level is missing. */
  datatype Attendee = Attendee(grossValue: Option<int>)

  function AttendeeCents(a: Attendee): int {
    a.grossValue.GetOr(0)
  }

  /** One line of a week's list. */
  datatype ReportEntry = ReportEntry(eventName: string, eventDate: string, ticketsSold: nat, grossCents: int)

  /** The total of the first `n` attendees' gross values. */
  function CentsSum(attendees: seq<Attendee>, n: nat): int
    requires n <= |attendees|
  {
    if n == 0 then 0 else CentsSum(attendees, n - 1) + AttendeeCents(attendees[n - 1])
  }

  /** `attendees_by_event.get(event_id, [])`. */
  function AttendeesOf(attendeesByEvent: map<string, seq<Attendee>>, id: string): seq<Attendee> {
    if id in attendeesByEvent then attendeesByEvent[id] else []
  }

  /** The key an event is filed under: the ordinal of its week's Monday. */
  function WeekKey(e: Event): int {
    WeekStart(ToOrdinal(e.date))
  }

  /** The line an event contributes. */
  function EntryOf(e: Event, attendeesByEvent: map<string, seq<Attendee>>): (entry: ReportEntry)
    ensures entry.ticketsSold == |AttendeesOf(attendeesByEvent, e.id)|
    ensures e.id !in attendeesByEvent ==> entry.ticketsSold == 0 && entry.grossCents == 0
  {
    var attendees := AttendeesOf(attendeesByEvent, e.id);
    ReportEntry(e.name, FormatDate(e.date), |attendees|, CentsSum(attendees, |attendees|))
  }

  /** `EntryOf` with the attendee table fixed. */
  function Entries(attendeesByEvent: map<string, seq<Attendee>>): Event -> ReportEntry {
    e => EntryOf(e, attendeesByEvent)
  }

  /**
   * The report after the first `n` events: each appended to the list of the
   * week `weekOf` files it under, as the line `entryOf` makes of it
   * (`WeekKey` and `Entries` in the report itself).
   */
  function ReportOf(events: seq<Event>, weekOf: Event -> int, entryOf: Event -> ReportEntry, n: nat): map<int, seq<ReportEntry>>
    requires n <= |events|
  {
    if n == 0 then map[]
    else
      var report := ReportOf(events, weekOf, entryOf, n - 1);
      var key := weekOf(events[n - 1]);
      var list := if key in report then report[key] else [];
      report[key := list + [entryOf(events[n - 1])]]
  }

  lemma ReportOfStep(events: seq<Event>, weekOf: Event -> int, entryOf: Event -> ReportEntry, n: nat)
    requires n < |events|
    ensures var report := ReportOf(events, weekOf, entryOf, n);
      var key := weekOf(events[n]);
      ReportOf(events, weekOf, entryOf, n + 1)
        == report[key := (if key in report then report[key] else []) + [entryOf(events[n])]]
  {
  }

  /** The lines of the first `n` events whose week is `key`, in input order. */
  function Bucket(events: seq<Event>, weekOf: Event -> int, entryOf: Event -> ReportEntry, key: int, n: nat): seq<ReportEntry>
    requires n <= |events|
  {
    if n == 0 then []
    else
      Bucket(events, weekOf, entryOf, key, n - 1)
      + if weekOf(events[n - 1]) == key then [entryOf(events[n - 1])] else []
  }

  /** The inner loop of `generate_weekly_report`: the event's revenue, in cents. */
  method TotalRevenue(attendees: seq<Attendee>) returns (total: int)
    ensures total == CentsSum(attendees, |attendees|)
  {
    total := 0;
    for j := 0 to |attendees|
      invariant total == CentsSum(attendees, j)
    {
      var cents := if attendees[j].grossValue.Some? then attendees[j].grossValue.value else 0;
      total := total + cents;
    }
  }

  /** `generate_weekly_report`: each event's line appended to the list of its week. */
  method GenerateWeeklyReport(events: seq<Event>, attendeesByEvent: map<string, seq<Attendee>>)
    returns (report: map<int, seq<ReportEntry>>)
    ensures report == ReportOf(events, WeekKey, Entries(attendeesByEvent), |events|)
  {
    report := map[];
    for i := 0 to |events|
      invariant report == ReportOf(events, WeekKey, Entries(attendeesByEvent), i)
    {
      var event := events[i];
      var weekStart := WeekStart(ToOrdinal(event.date));
      var attendees := if event.id in attendeesByEvent then attendeesByEvent[event.id] else [];
      var ticketsSold := |attendees|;
      var totalRevenue := TotalRevenue(attendees);
      var entry := ReportEntry(event.name, FormatDate(event.date), ticketsSold, totalRevenue);
      assert entry == Entries(attendeesByEvent)(event) && weekStart == WeekKey(event);
      var list := if weekStart in report then report[weekStart] else [];
      ReportOfStep(events, WeekKey, Entries(attendeesByEvent), i);
      report := report[weekStart := list + [entry]];
    }
  }

  /**
   * A week is in the report exactly when some event falls in it, and its
   * list is the lines of exactly those events, in input order.
   */
  lemma {:induction false} ReportBuckets(events: seq<Event>, weekOf: Event -> int, entryOf: Event -> ReportEntry, n: nat, key: int)
    requires n <= |events|
    ensures key in ReportOf(events, weekOf, entryOf, n) <==> exists i :: 0 <= i < n && weekOf(events[i]) == key
    ensures key in ReportOf(events, weekOf, entryOf, n) ==> ReportOf(events, weekOf, entryOf, n)[key] == Bucket(events, weekOf, entryOf, key, n)
    ensures key !in ReportOf(events, weekOf, entryOf, n) ==> Bucket(events, weekOf, entryOf, key, n) == []
  {
    if n > 0 {
      ReportBuckets(events, weekOf, entryOf, n - 1, key);
      if weekOf(events[n - 1]) != key && key in ReportOf(events, weekOf, entryOf, n) {
        var i :| 0 <= i < n - 1 && weekOf(events[i]) == key;
      }
    }
  }

  /** Each event's line is in the list of its own week, in the position of its input order. */
  lemma EventFiled(events: seq<Event>, weekOf: Event -> int, entryOf: Event -> ReportEntry, i: nat)
    requires i < |events|
    ensures var key := weekOf(events[i]);
      && key in ReportOf(events, weekOf, entryOf, |events|)
      && entryOf(events[i]) in ReportOf(events, weekOf, entryOf, |events|)[key]
  {
    var key := weekOf(events[i]);
    ReportBuckets(events, weekOf, entryOf, |events|, key);
    BucketHolds(events, weekOf, entryOf, i, |events|);
  }

  lemma {:induction false} BucketHolds(events: seq<Event>, weekOf: Event -> int, entryOf: Event -> ReportEntry, i: nat, n: nat)
    requires i < n <= |events|
    ensures entryOf(events[i]) in Bucket(events, weekOf, entryOf, weekOf(events[i]), n)
  {
    if i < n - 1 {
      BucketHolds(events, weekOf, entryOf, i, n - 1);
    }
  }

  /** The weeks of the first `n` events, each once, in order of first appearance. */
  function WeekKeys(events: seq<Event>, weekOf: Event -> int, n: nat): (keys: seq<int>)
    requires n <= |events|
    ensures forall i :: 0 <= i < n ==> weekOf(events[i]) in keys
    ensures forall a, b :: 0 <= a < b < |keys| ==> keys[a] != keys[b]
  {
    if n == 0 then []
    else
      var keys := WeekKeys(events, weekOf, n - 1);
      var key := weekOf(events[n - 1]);
      if key in keys then keys else keys + [key]
  }

  /** A week is listed exactly when some event of the first `n` falls in it. */
  lemma {:induction false} WeekKeysAreEventWeeks(events: seq<Event>, weekOf: Event -> int, n: nat, key: int)
    requires n <= |events|
    ensures key in WeekKeys(events, weekOf, n) <==> exists i :: 0 <= i < n && weekOf(events[i]) == key
  {
    if n > 0 {
      WeekKeysAreEventWeeks(events, weekOf, n - 1, key);
      if key in WeekKeys(events, weekOf, n) && weekOf(events[n - 1]) != key {
        var i :| 0 <= i < n - 1 && weekOf(events[i]) == key;
      }
    }
  }

  /** The listed weeks are exactly the weeks of the report. */
  lemma WeekKeysAreReportWeeks(events: seq<Event>, weekOf: Event -> int, entryOf: Event -> ReportEntry, n: nat, key: int)
    requires n <= |events|
    ensures key in WeekKeys(events, weekOf, n) <==> key in ReportOf(events, weekOf, entryOf, n)
  {
    WeekKeysAreEventWeeks(events, weekOf, n, key);
    ReportBuckets(events, weekOf, entryOf, n, key);
  }

  /** The sizes of the lists of the given weeks. */
  function ListSizes(events: seq<Event>, weekOf: Event -> int, entryOf: Event -> ReportEntry, keys: seq<int>, n: nat): int
    requires n <= |events|
  {
    if keys == [] then 0 else |Bucket(events, weekOf, entryOf, keys[0], n)| + ListSizes(events, weekOf, entryOf, keys[1..], n)
  }

  /** Adding one event grows the list of its own week by one and no other. */
  lemma {:induction false} ListSizesStep(events: seq<Event>, weekOf: Event -> int, entryOf: Event -> ReportEntry, keys: seq<int>, n: nat)
    requires 0 < n <= |events|
    requires forall a, b :: 0 <= a < b < |keys| ==> keys[a] != keys[b]
    ensures ListSizes(events, weekOf, entryOf, keys, n)
      == ListSizes(events, weekOf, entryOf, keys, n - 1) + if weekOf(events[n - 1]) in keys then 1 else 0
  {
    if keys != [] {
      ListSizesStep(events, weekOf, entryOf, keys[1..], n);
      assert weekOf(events[n - 1]) in keys <==> weekOf(events[n - 1]) == keys[0] || weekOf(events[n - 1]) in keys[1..];
      if weekOf(events[n - 1]) == keys[0] {
        assert keys[0] !in keys[1..];
      }
    }
  }

  lemma {:induction false} ListSizesAppend(events: seq<Event>, weekOf: Event -> int, entryOf: Event -> ReportEntry, keys: seq<int>, key: int, n: nat)
    requires n <= |events|
    ensures ListSizes(events, weekOf, entryOf, keys + [key], n)
      == ListSizes(events, weekOf, entryOf, keys, n) + |Bucket(events, weekOf, entryOf, key, n)|
  {
    if keys != [] {
      ListSizesAppend(events, weekOf, entryOf, keys[1..], key, n);
      assert (keys + [key])[1..] == keys[1..] + [key];
    }
  }

  /** Every week key of the first `n` events has an empty list before any event of that week. */
  lemma {:induction false} BucketEmptyBefore(events: seq<Event>, weekOf: Event -> int, entryOf: Event -> ReportEntry, key: int, n: nat)
    requires n <= |events|
    requires forall i :: 0 <= i < n ==> weekOf(events[i]) != key
    ensures Bucket(events, weekOf, entryOf, key, n) == []
  {
    if n > 0 {
      BucketEmptyBefore(events, weekOf, entryOf, key, n - 1);
    }
  }

  /** The lists of all the weeks together hold one line per event. */
  lemma {:induction false} ReportSize(events: seq<Event>, weekOf: Event -> int, entryOf: Event -> ReportEntry, n: nat)
    requires n <= |events|
    ensures ListSizes(events, weekOf, entryOf, WeekKeys(events, weekOf, n), n) == n
  {
    if n > 0 {
      var keys := WeekKeys(events, weekOf, n - 1);
      var key := weekOf(events[n - 1]);
      assert WeekKeys(events, weekOf, n) == if key in keys then keys else keys + [key];
      ReportSize(events, weekOf, entryOf, n - 1);
      ReportSizeStep(events, weekOf, entryOf, keys, n);
    }
  }

  /** One more event adds one line, to a week already listed or to a new one. */
  lemma ReportSizeStep(events: seq<Event>, weekOf: Event -> int, entryOf: Event -> ReportEntry, keys: seq<int>, n: nat)
    requires 0 < n <= |events|
    requires forall a, b :: 0 <= a < b < |keys| ==> keys[a] != keys[b]
    requires forall i :: 0 <= i < n - 1 ==> weekOf(events[i]) in keys
    requires ListSizes(events, weekOf, entryOf, keys, n - 1) == n - 1
    ensures var key := weekOf(events[n - 1]);
      ListSizes(events, weekOf, entryOf, if key in keys then keys else keys + [key], n) == n
  {
    var key := weekOf(events[n - 1]);
    ListSizesStep(events, weekOf, entryOf, keys, n);
    if key !in keys {
      assert Bucket(events, weekOf, entryOf, key, n) == [entryOf(events[n - 1])] by {
        BucketEmptyBefore(events, weekOf, entryOf, key, n - 1);
      }
      ListSizesAppend(events, weekOf, entryOf, keys, key, n);
    }
  }

  /** A line's revenue is the sum of its event's attendees' gross values, missing ones counting as 0. */
  lemma {:induction false} CentsSumBounds(attendees: seq<Attendee>, n: nat)
    requires n <= |attendees|
    requires forall j :: 0 <= j < n ==> AttendeeCents(attendees[j]) >= 0
    ensures CentsSum(attendees, n) >= 0
    ensures (forall j :: 0 <= j < n ==> attendees[j].grossValue.None?) ==> CentsSum(attendees, n) == 0
  {
    if n > 0 {
      CentsSumBounds(attendees, n - 1);
    }
  }
}
