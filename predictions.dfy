/**
 * The analytics engine of the dashboard: least-squares trend fitting and a
 * short-horizon forecast of monthly attendees and revenue, a ranking of
 * weekdays by average attendance, and a breakdown by season.
 *
 * JavaScript numbers are modelled as exact reals; `Math.round(x)` is
 * `floor(x + 0.5)`.
 */
module Predictions {
  import opened Wrappers
  import opened Text
  import StableSort

  // ---------------------------------------------------------------------
  // Input records
  // ---------------------------------------------------------------------

  /** A numeric property of a JavaScript object: absent, `null`, or a number. */
  datatype NumField = Undefined | Null | Num(value: real)

  /** `field || 0`: an absent or `null` field reads as 0 (and 0 stays 0). */
  function OrZero(f: NumField): real {
    if f.Num? then f.value else 0.0
  }

  /** One row of the monthly time series: a `YYYY-MM` key and three counters. */
  datatype MonthlyTrend = MonthlyTrend(month: string, events: NumField, attendees: NumField, revenue: NumField)

  // ---------------------------------------------------------------------
  // Least-squares fit over index/value pairs
  // ---------------------------------------------------------------------

  datatype Line = Line(slope: real, intercept: real) {
    /** The fitted value at index `x`. */
    function At(x: int): real {
      slope * x as real + intercept
    }
  }

  /** Σ i for i < n. */
  function SumX(n: nat): real {
    if n == 0 then 0.0 else SumX(n - 1) + (n - 1) as real
  }

  /** Σ i² for i < n. */
  function SumX2(n: nat): real {
    if n == 0 then 0.0 else SumX2(n - 1) + (n - 1) as real * (n - 1) as real
  }

  /** Σ v[i] for i < n. */
  function SumY(v: seq<real>, n: nat): real
    requires n <= |v|
  {
    if n == 0 then 0.0 else SumY(v, n - 1) + v[n - 1]
  }

  /** Σ i · v[i] for i < n. */
  function SumXY(v: seq<real>, n: nat): real
    requires n <= |v|
  {
    if n == 0 then 0.0 else SumXY(v, n - 1) + (n - 1) as real * v[n - 1]
  }

  lemma {:induction false} SumXClosedForm(n: nat)
    ensures 2.0 * SumX(n) == n as real * (n as real - 1.0)
  {
    if n > 0 {
      SumXClosedForm(n - 1);
      var m := n as real;
      assert 2.0 * SumX(n) == (m - 1.0) * (m - 2.0) + 2.0 * (m - 1.0);
    }
  }

  lemma {:induction false} SumX2ClosedForm(n: nat)
    ensures 6.0 * SumX2(n) == (n as real - 1.0) * n as real * (2.0 * n as real - 1.0)
  {
    if n > 0 {
      SumX2ClosedForm(n - 1);
      SquareSumStep(n as real);
    }
  }

  lemma SquareSumStep(m: real)
    ensures (m - 2.0) * (m - 1.0) * (2.0 * m - 3.0) + 6.0 * ((m - 1.0) * (m - 1.0)) == (m - 1.0) * m * (2.0 * m - 1.0)
  {
    assert (m - 2.0) * (m - 1.0) * (2.0 * m - 3.0) == 2.0 * m * m * m - 9.0 * m * m + 13.0 * m - 6.0;
    assert (m - 1.0) * m * (2.0 * m - 1.0) == 2.0 * m * m * m - 3.0 * m * m + m;
  }

  /**
   * With two or more points the slope's denominator n·Σi² − (Σi)² is n²(n²−1)/12 > 0, so the
   * slope formula never divides by zero.
   */
  lemma DenominatorPositive(n: nat)
    requires n >= 2
    ensures n as real * SumX2(n) - SumX(n) * SumX(n) > 0.0
  {
    SumXClosedForm(n);
    SumX2ClosedForm(n);
    var m, s1, s2 := n as real, SumX(n), SumX2(n);
    assert 12.0 * (m * s2 - s1 * s1) == 2.0 * m * (6.0 * s2) - 3.0 * (2.0 * s1) * (2.0 * s1);
    assert 12.0 * (m * s2 - s1 * s1) == (m * m) * ((m - 1.0) * (m + 1.0));
    assert m * m > 0.0 && (m - 1.0) * (m + 1.0) > 0.0;
  }

  /** The normal-equation solution from the four sums over `n` points. */
  function LineFromSums(n: nat, sumX: real, sumY: real, sumXY: real, sumX2: real): Line
    requires n >= 1 && n as real * sumX2 - sumX * sumX != 0.0
  {
    var slope := (n as real * sumXY - sumX * sumY) / (n as real * sumX2 - sumX * sumX);
    Line(slope, (sumY - slope * sumX) / n as real)
  }

  /**
   * The least-squares line through (i, v[i]) by the normal equations; the
   * flat line y = 0 when there are fewer than two points.
   */
  function Fit(v: seq<real>): Line {
    var n := |v|;
    if n < 2 then Line(0.0, 0.0)
    else
      DenominatorPositive(n);
      LineFromSums(n, SumX(n), SumY(v, n), SumXY(v, n), SumX2(n))
  }

  /** `linearRegression`: one pass accumulating Σi, Σv, Σi·v and Σi². */
  method LinearRegression(values: seq<real>) returns (line: Line)
    ensures line == Fit(values)
    ensures |values| < 2 ==> line == Line(0.0, 0.0)
  {
    var n := |values|;
    if n < 2 {
      return Line(0.0, 0.0);
    }
    var sumX, sumY, sumXY, sumX2 := 0.0, 0.0, 0.0, 0.0;
    var i := 0;
    while i < n
      invariant 0 <= i <= n
      invariant sumX == SumX(i) && sumX2 == SumX2(i)
      invariant sumY == SumY(values, i) && sumXY == SumXY(values, i)
    {
      sumX := sumX + i as real;
      sumY := sumY + values[i];
      sumXY := sumXY + i as real * values[i];
      sumX2 := sumX2 + i as real * i as real;
      i := i + 1;
    }
    DenominatorPositive(n);
    line := LineFromSums(n, sumX, sumY, sumXY, sumX2);
  }

  /** The four sums over `n` points lie on y = a·x + b: Σv = a·Σi + n·b and Σi·v = a·Σi² + b·Σi. */
  ghost predicate SumsOnLine(n: nat, sumX: real, sumY: real, sumXY: real, sumX2: real, a: real, b: real) {
    sumY == a * sumX + n as real * b && sumXY == a * sumX2 + b * sumX
  }

  /**
   * Adding the point (n − 1, y) with y = a·(n − 1) + b to the sums over n − 1 points
   * gives sums over n points that stay on the line.
   */
  lemma SumsOnLineStep(n: nat, sumX: real, sumY: real, sumXY: real, sumX2: real, a: real, b: real, y: real,
                       nextX: real, nextY: real, nextXY: real, nextX2: real)
    requires n >= 1
    requires SumsOnLine(n - 1, sumX, sumY, sumXY, sumX2, a, b)
    requires y == a * (n - 1) as real + b
    requires nextX == sumX + (n - 1) as real && nextY == sumY + y
    requires nextXY == sumXY + (n - 1) as real * y && nextX2 == sumX2 + (n - 1) as real * (n - 1) as real
    ensures SumsOnLine(n, nextX, nextY, nextXY, nextX2, a, b)
  {
    var m := (n - 1) as real;
    assert sumXY + m * y == a * (sumX2 + m * m) + b * (sumX + m);
  }

  /** The sums over the first `n` points of data lying on y = a·x + b satisfy the line's two equations. */
  lemma {:induction false} LinearSums(v: seq<real>, n: nat, a: real, b: real)
    requires n <= |v|
    requires forall i :: 0 <= i < |v| ==> v[i] == a * i as real + b
    ensures SumsOnLine(n, SumX(n), SumY(v, n), SumXY(v, n), SumX2(n), a, b)
  {
    if n > 0 {
      LinearSums(v, n - 1, a, b);
      LinearSumsStep(v, n, a, b);
    }
  }

  /** The sums over n points stay on the line when those over n − 1 points do and point n − 1 does. */
  lemma LinearSumsStep(v: seq<real>, n: nat, a: real, b: real)
    requires 1 <= n <= |v|
    requires SumsOnLine(n - 1, SumX(n - 1), SumY(v, n - 1), SumXY(v, n - 1), SumX2(n - 1), a, b)
    requires v[n - 1] == a * (n - 1) as real + b
    ensures SumsOnLine(n, SumX(n), SumY(v, n), SumXY(v, n), SumX2(n), a, b)
  {
    SumsOnLineStep(n, SumX(n - 1), SumY(v, n - 1), SumXY(v, n - 1), SumX2(n - 1), a, b, v[n - 1],
                   SumX(n), SumY(v, n), SumXY(v, n), SumX2(n));
  }

  /** Data lying exactly on y = a·x + b is fitted by exactly that line. */
  lemma FitExact(v: seq<real>, a: real, b: real)
    requires |v| >= 2
    requires forall i :: 0 <= i < |v| ==> v[i] == a * i as real + b
    ensures Fit(v) == Line(a, b)
  {
    var n := |v|;
    LinearSums(v, n, a, b);
    DenominatorPositive(n);
    SolveExactLine(n, SumX(n), SumY(v, n), SumXY(v, n), SumX2(n), a, b);
  }

  /** The normal equations solved for sums taken over points on y = a·x + b. */
  lemma SolveExactLine(n: nat, sumX: real, sumY: real, sumXY: real, sumX2: real, a: real, b: real)
    requires n >= 1 && n as real * sumX2 - sumX * sumX != 0.0
    requires SumsOnLine(n, sumX, sumY, sumXY, sumX2, a, b)
    ensures LineFromSums(n, sumX, sumY, sumXY, sumX2) == Line(a, b)
  {
    var m, d := n as real, n as real * sumX2 - sumX * sumX;
    assert m * sumXY - sumX * sumY == a * d;
    assert (m * sumXY - sumX * sumY) / d == a;
    assert (sumY - a * sumX) / m == b;
  }

  // ---------------------------------------------------------------------
  // Rounding and trend classification
  // ---------------------------------------------------------------------

  /** `Math.round(x)`: the nearest integer, halves rounded up. */
  function Round(x: real): (r: int)
    ensures x - 0.5 < r as real <= x + 0.5
  {
    (x + 0.5).Floor
  }

  /** A slope above this many attendees per month is a growing trend, below its negation a declining one. */
  const AttendeeTrendThreshold: real := 5.0
  /** The same threshold for revenue per month. */
  const RevenueTrendThreshold: real := 50.0
  /** A forecast needs at least this many months of history. */
  const MinForecastHistory: nat := 3

  datatype Trend = Growing | Declining | Stable

  /** Exactly one label applies: above the threshold, below its negation, or in between. */
  function Classify(slope: real, threshold: real): (t: Trend)
    requires threshold >= 0.0
    ensures t == Growing <==> slope > threshold
    ensures t == Declining <==> slope < -threshold
    ensures t == Stable <==> -threshold <= slope <= threshold
  {
    if slope > threshold then Growing
    else if slope < -threshold then Declining
    else Stable
  }

  // ---------------------------------------------------------------------
  // Month keys
  // ---------------------------------------------------------------------

  datatype YearMonth = YearMonth(year: nat, month: nat) {
    /** Months since January of year 0: consecutive months have consecutive indexes. */
    function Index(): int {
      year * 12 + month - 1
    }
  }

  /**
   * `key.split('-').map(Number)` on a key of the form digits '-' digits; any
   * other shape is `None`.
   */
  function ParseMonthKey(key: string): Option<YearMonth> {
    var p := IndexOf(key, '-');
    if 0 < p < |key| - 1 && AllDigits(key[..p]) && AllDigits(key[p + 1..]) then
      Some(YearMonth(DecimalValue(key[..p]), DecimalValue(key[p + 1..])))
    else None
  }

  /** A `YYYY-MM`-style key whose month is a calendar month. */
  predicate IsMonthKey(key: string) {
    var ym := ParseMonthKey(key);
    ym.Some? && 1 <= ym.value.month <= 12
  }

  /** `${year}-${String(month).padStart(2, '0')}`. */
  function MonthKey(ym: YearMonth): string {
    NatToString(ym.year) + "-" + ZeroPad(ym.month, 2)
  }

  /** A rendered key reads back as the year and month it was made from. */
  lemma MonthKeyRoundTrip(ym: YearMonth)
    ensures ParseMonthKey(MonthKey(ym)) == Some(ym)
  {
    var y, m := NatToString(ym.year), ZeroPad(ym.month, 2);
    var key := MonthKey(ym);
    assert key[..|y|] == y && key[|y| + 1..] == m;
    assert IndexOf(key, '-') == |y| by {
      assert key[|y|] == '-';
      forall i | 0 <= i < |y| ensures key[i] != '-' {
        assert key[i] == y[i] && IsDigit(y[i]);
      }
      IndexOfFirst(key, '-', |y|);
    }
    NatToStringRoundTrip(ym.year);
    ZeroPadRoundTrip(ym.month, 2);
  }

  /** The calendar month after `ym`: January of the next year after December. */
  function NextMonth(ym: YearMonth): (r: YearMonth)
    requires 1 <= ym.month <= 12
    ensures 1 <= r.month <= 12
    ensures r.Index() == ym.Index() + 1
  {
    if ym.month == 12 then YearMonth(ym.year + 1, 1) else YearMonth(ym.year, ym.month + 1)
  }

  /** The month `i` months after `ym`. */
  function MonthsLater(ym: YearMonth, i: nat): (r: YearMonth)
    requires 1 <= ym.month <= 12
    ensures 1 <= r.month <= 12
    ensures r.Index() == ym.Index() + i
  {
    if i == 0 then ym else NextMonth(MonthsLater(ym, i - 1))
  }

  /** A calendar month is determined by its index. */
  lemma IndexDetermines(ym1: YearMonth, ym2: YearMonth)
    requires 1 <= ym1.month <= 12 && 1 <= ym2.month <= 12
    requires ym1.Index() == ym2.Index()
    ensures ym1 == ym2
  {
  }

  /**
   * The inner rollover loop of `predictNextMonths`: add `i` to the month and
   * subtract 12 (adding a year) while it exceeds 12.
   */
  method AddMonths(year: nat, month: nat, i: nat) returns (nextYear: nat, nextMonth: nat)
    requires 1 <= month <= 12
    ensures YearMonth(nextYear, nextMonth) == MonthsLater(YearMonth(year, month), i)
  {
    nextMonth := month + i;
    nextYear := year;
    while nextMonth > 12
      invariant 1 <= nextMonth
      invariant nextYear * 12 + nextMonth == year * 12 + month + i
    {
      nextMonth := nextMonth - 12;
      nextYear := nextYear + 1;
    }
    IndexDetermines(YearMonth(nextYear, nextMonth), MonthsLater(YearMonth(year, month), i));
  }

  /** The English three-letter abbreviation of calendar month `m`. */
  function MonthAbbreviation(m: nat): (s: string)
    requires 1 <= m <= 12
    ensures |s| == 3
  {
    match m
    case 1 => "Jan" case 2 => "Feb" case 3 => "Mar" case 4 => "Apr"
    case 5 => "May" case 6 => "Jun" case 7 => "Jul" case 8 => "Aug"
    case 9 => "Sep" case 10 => "Oct" case 11 => "Nov" case _ => "Dec"
  }

  /** The last two characters of `s` (all of it when shorter): `s.slice(-2)`. */
  function LastTwo(s: string): (r: string)
    ensures |r| == if |s| < 2 then |s| else 2
    ensures forall i :: 0 <= i < |r| ==> r[i] == s[|s| - |r| + i]
  {
    if |s| < 2 then s else s[|s| - 2..]
  }

  /** `Mon 'YY`, e.g. `Jun '24`; month names from a fixed English table. */
  function MonthLabel(ym: YearMonth): string
    requires 1 <= ym.month <= 12
  {
    MonthAbbreviation(ym.month) + " '" + LastTwo(NatToString(ym.year))
  }

  // ---------------------------------------------------------------------
  // Forecast: predictNextMonths
  // ---------------------------------------------------------------------

  datatype Prediction = Prediction(month: string, monthLabel: string, attendees: nat, revenue: nat)

  datatype Forecast =
    | /** `{ predictions: [], trend: 'insufficient_data' }` */
      NoForecast
    | Projected(predictions: seq<Prediction>, attendeeTrend: Trend, revenueTrend: Trend, avgGrowthRate: real)
  {
    /** The predictions of either shape (empty when there is no forecast). */
    function Predictions(): seq<Prediction> {
      if NoForecast? then [] else predictions
    }
  }

  /** Attendees per month, missing values as 0. */
  function AttendeeSeries(trends: seq<MonthlyTrend>): (v: seq<real>)
    ensures |v| == |trends|
    ensures forall i :: 0 <= i < |v| ==> v[i] == OrZero(trends[i].attendees)
  {
    seq(|trends|, i requires 0 <= i < |trends| => OrZero(trends[i].attendees))
  }

  /** Revenue per month, missing values as 0. */
  function RevenueSeries(trends: seq<MonthlyTrend>): (v: seq<real>)
    ensures |v| == |trends|
    ensures forall i :: 0 <= i < |v| ==> v[i] == OrZero(trends[i].revenue)
  {
    seq(|trends|, i requires 0 <= i < |trends| => OrZero(trends[i].revenue))
  }

  /** `Math.max(0, Math.round(line at index))`. */
  function Projection(line: Line, index: int): nat {
    var r := Round(line.At(index));
    if r < 0 then 0 else r
  }

  /** What the forecast demands of its caller: with enough history, the last month key is `YYYY-MM`. */
  predicate ForecastInput(trends: seq<MonthlyTrend>) {
    |trends| >= MinForecastHistory ==> IsMonthKey(trends[|trends| - 1].month)
  }

  function LastMonth(trends: seq<MonthlyTrend>): (ym: YearMonth)
    requires |trends| >= 1 && IsMonthKey(trends[|trends| - 1].month)
    ensures 1 <= ym.month <= 12
  {
    ParseMonthKey(trends[|trends| - 1].month).value
  }

  /**
   * The `i`-th forecast month (1-based) after `n` months of history ending in
   * `last`: the lines evaluated at index n + i − 1, labelled `i` months after `last`.
   */
  function PredictionAt(n: nat, last: YearMonth, attendeeFit: Line, revenueFit: Line, i: nat): Prediction
    requires 1 <= last.month <= 12
  {
    var index := n + i - 1;
    var ym := MonthsLater(last, i);
    Prediction(MonthKey(ym), MonthLabel(ym), Projection(attendeeFit, index), Projection(revenueFit, index))
  }

  /** The forecast months as a function of their 1-based position. */
  function Projector(n: nat, last: YearMonth, attendeeFit: Line, revenueFit: Line): nat -> Prediction
    requires 1 <= last.month <= 12
  {
    (i: nat) => PredictionAt(n, last, attendeeFit, revenueFit, i)
  }

  /** `[at(1), …, at(count)]`. */
  function Tabulate<T>(count: nat, at: nat -> T): (s: seq<T>)
    ensures |s| == count
  {
    if count == 0 then [] else Tabulate(count - 1, at) + [at(count)]
  }

  lemma {:induction false} TabulateAt<T>(count: nat, at: nat -> T, i: nat)
    requires 1 <= i <= count
    ensures Tabulate(count, at)[i - 1] == at(i)
  {
    if i < count {
      TabulateAt(count - 1, at, i);
    }
  }

  /** The number of months a forecast covers: `monthsAhead`, or none when it is not positive. */
  function Horizon(monthsAhead: int): nat {
    if monthsAhead < 0 then 0 else monthsAhead
  }

  /** The result of `predictNextMonths(trends, monthsAhead)`. */
  function ForecastOf(trends: seq<MonthlyTrend>, monthsAhead: int): (f: Forecast)
    requires ForecastInput(trends)
    ensures f.NoForecast? <==> |trends| < MinForecastHistory
    ensures f.Projected? ==> |f.predictions| == Horizon(monthsAhead)
    ensures f.Projected? ==> f.avgGrowthRate == Fit(AttendeeSeries(trends)).slope
    ensures f.Projected? ==>
      && (f.attendeeTrend == Growing <==> Fit(AttendeeSeries(trends)).slope > 5.0)
      && (f.attendeeTrend == Declining <==> Fit(AttendeeSeries(trends)).slope < -5.0)
      && (f.revenueTrend == Growing <==> Fit(RevenueSeries(trends)).slope > 50.0)
      && (f.revenueTrend == Declining <==> Fit(RevenueSeries(trends)).slope < -50.0)
  {
    if |trends| < MinForecastHistory then NoForecast
    else
      var attendeeFit := Fit(AttendeeSeries(trends));
      var revenueFit := Fit(RevenueSeries(trends));
      Projected(
        Tabulate(Horizon(monthsAhead), Projector(|trends|, LastMonth(trends), attendeeFit, revenueFit)),
        Classify(attendeeFit.slope, AttendeeTrendThreshold),
        Classify(revenueFit.slope, RevenueTrendThreshold),
        attendeeFit.slope)
  }

  /** `predictNextMonths`: fit both series, classify, then project the months ahead. */
  method PredictNextMonths(trends: seq<MonthlyTrend>, monthsAhead: int) returns (f: Forecast)
    requires ForecastInput(trends)
    ensures f == ForecastOf(trends, monthsAhead)
  {
    if |trends| < MinForecastHistory {
      return NoForecast;
    }
    var attendeeFit := LinearRegression(AttendeeSeries(trends));
    var revenueFit := LinearRegression(RevenueSeries(trends));
    var attendeeTrend := Classify(attendeeFit.slope, AttendeeTrendThreshold);
    var revenueTrend := Classify(revenueFit.slope, RevenueTrendThreshold);
    var last := ParseMonthKey(trends[|trends| - 1].month).value;
    assert last == LastMonth(trends);
    var predictions := ProjectMonths(|trends|, last, attendeeFit, revenueFit, monthsAhead);
    f := Projected(predictions, attendeeTrend, revenueTrend, attendeeFit.slope);
  }

  /**
   * The loop of `predictNextMonths`: for i = 1 .. monthsAhead, evaluate both
   * lines at index n + i − 1 and label the month i months after `last`.
   */
  method ProjectMonths(n: nat, last: YearMonth, attendeeFit: Line, revenueFit: Line, monthsAhead: int)
    returns (predictions: seq<Prediction>)
    requires 1 <= last.month <= 12
    ensures predictions == Tabulate(Horizon(monthsAhead), Projector(n, last, attendeeFit, revenueFit))
  {
    predictions := [];
    var i := 1;
    while i <= monthsAhead
      invariant 1 <= i <= Horizon(monthsAhead) + 1
      invariant predictions == Tabulate(i - 1, Projector(n, last, attendeeFit, revenueFit))
    {
      var predictedAttendees := Projection(attendeeFit, n + i - 1);
      var predictedRevenue := Projection(revenueFit, n + i - 1);
      var nextYear, nextMonth := AddMonths(last.year, last.month, i);
      var ym := YearMonth(nextYear, nextMonth);
      assert ym == MonthsLater(last, i) by {
        assert YearMonth(last.year, last.month) == last;
      }
      var prediction := Prediction(MonthKey(ym), MonthLabel(ym), predictedAttendees, predictedRevenue);
      assert prediction == PredictionAt(n, last, attendeeFit, revenueFit, i);
      assert prediction == Projector(n, last, attendeeFit, revenueFit)(i);
      predictions := predictions + [prediction];
      i := i + 1;
    }
    assert i - 1 == Horizon(monthsAhead);
  }

  /** The k-th forecast entry (0-based) is the (k + 1)-th month projected from both fitted lines. */
  lemma ForecastEntry(trends: seq<MonthlyTrend>, monthsAhead: int, k: nat)
    requires ForecastInput(trends) && |trends| >= MinForecastHistory && k < Horizon(monthsAhead)
    ensures ForecastOf(trends, monthsAhead).predictions[k]
         == PredictionAt(|trends|, LastMonth(trends), Fit(AttendeeSeries(trends)), Fit(RevenueSeries(trends)), k + 1)
  {
    TabulateAt(Horizon(monthsAhead), Projector(|trends|, LastMonth(trends), Fit(AttendeeSeries(trends)), Fit(RevenueSeries(trends))), k + 1);
  }

  /**
   * The k-th forecast month (0-based) reads back as the month k + 1 months
   * after the last observed one: a calendar month, and strictly later than
   * every forecast month before it.
   */
  lemma ForecastMonths(trends: seq<MonthlyTrend>, monthsAhead: int, k: nat)
    requires ForecastInput(trends)
    requires k < |ForecastOf(trends, monthsAhead).Predictions()|
    ensures var ym := ParseMonthKey(ForecastOf(trends, monthsAhead).Predictions()[k].month);
      && ym.Some?
      && 1 <= ym.value.month <= 12
      && ym.value.Index() == LastMonth(trends).Index() + k + 1
  {
    ForecastEntry(trends, monthsAhead, k);
    MonthKeyRoundTrip(MonthsLater(LastMonth(trends), k + 1));
  }

  /** Forecast month keys are strictly increasing. */
  lemma ForecastMonthsIncrease(trends: seq<MonthlyTrend>, monthsAhead: int, j: nat, k: nat)
    requires ForecastInput(trends)
    requires j < k < |ForecastOf(trends, monthsAhead).Predictions()|
    ensures var p := ForecastOf(trends, monthsAhead).Predictions();
      var yj, yk := ParseMonthKey(p[j].month), ParseMonthKey(p[k].month);
      yj.Some? && yk.Some? && yj.value.Index() < yk.value.Index()
  {
    var p := ForecastOf(trends, monthsAhead).Predictions();
    ForecastMonths(trends, monthsAhead, j);
    ForecastMonths(trends, monthsAhead, k);
    var yj, yk := ParseMonthKey(p[j].month), ParseMonthKey(p[k].month);
    assert yj.value.Index() == LastMonth(trends).Index() + j + 1;
    assert yk.value.Index() == LastMonth(trends).Index() + k + 1;
  }

  /**
   * When the attendee series lies exactly on y = a·x + b, the growth rate is
   * a, the trend is classified from a, and the k-th forecast is that line at
   * index n + k, rounded and clamped at 0.
   */
  lemma ForecastOfLinearAttendees(trends: seq<MonthlyTrend>, monthsAhead: int, a: real, b: real)
    requires ForecastInput(trends)
    requires |trends| >= MinForecastHistory
    requires forall i :: 0 <= i < |trends| ==> OrZero(trends[i].attendees) == a * i as real + b
    ensures var f := ForecastOf(trends, monthsAhead);
      && f.avgGrowthRate == a
      && f.attendeeTrend == Classify(a, AttendeeTrendThreshold)
      && forall k :: 0 <= k < |f.predictions| ==> f.predictions[k].attendees == Projection(Line(a, b), |trends| + k)
  {
    var f := ForecastOf(trends, monthsAhead);
    FitExact(AttendeeSeries(trends), a, b);
    forall k | 0 <= k < |f.predictions|
      ensures f.predictions[k].attendees == Projection(Line(a, b), |trends| + k)
    {
      ForecastEntry(trends, monthsAhead, k);
    }
  }

  // ---------------------------------------------------------------------
  // Best days: analyzeBestDays
  // ---------------------------------------------------------------------

  /** `Date.prototype.getDay()`: 0 is Sunday, 6 is Saturday. */
  type Day = d: nat | d < 7

  function DayName(d: Day): (name: string)
    ensures |name| >= 6
  {
    match d
    case 0 => "Sunday" case 1 => "Monday" case 2 => "Tuesday" case 3 => "Wednesday"
    case 4 => "Thursday" case 5 => "Friday" case _ => "Saturday"
  }

  /** The weekday whose name is `name`; 7 for any other string. */
  function DayRank(name: string): (d: nat)
    ensures d < 7 ==> DayName(d) == name
  {
    if name == "Sunday" then 0 else if name == "Monday" then 1 else if name == "Tuesday" then 2
    else if name == "Wednesday" then 3 else if name == "Thursday" then 4 else if name == "Friday" then 5
    else if name == "Saturday" then 6 else 7
  }

  lemma DayRankOfName(d: Day)
    ensures DayRank(DayName(d)) == d
  {
  }

  /** An event as the analyzer reads it: `start` (absent, or a string) and `attendees`. */
  datatype EventRecord = EventRecord(start: Option<string>, attendees: NumField)

  /** `event.start && event.attendees !== undefined`: a non-empty start and an attendee field that is present. */
  predicate Counted(e: EventRecord) {
    e.start.Some? && e.start.value != "" && !e.attendees.Undefined?
  }

  /** One weekday accumulator `{ name, count, totalAttendees }`. */
  datatype DayStat = DayStat(name: string, count: nat, totalAttendees: real)

  /** The seven accumulators, Sunday first, all zero. */
  function InitialDayStats(): (stats: seq<DayStat>)
    ensures |stats| == 7
    ensures forall d :: 0 <= d < 7 ==> stats[d] == DayStat(DayName(d), 0, 0.0)
  {
    seq(7, d requires 0 <= d < 7 => DayStat(DayName(d), 0, 0.0))
  }

  /**
   * One step of the `forEach`: a counted event adds one to its weekday's count
   * and its attendees to the weekday's total. `dayOf` is the weekday of the
   * parsed start date, `None` for an unparsable date, whose `NaN` weekday has no
   * accumulator: the update then throws, which is `None` here.
   */
  function RecordEvent(stats: seq<DayStat>, e: EventRecord, dayOf: string -> Option<Day>): Option<seq<DayStat>>
    requires |stats| == 7
  {
    if !Counted(e) then Some(stats)
    else match dayOf(e.start.value)
      case None => None
      case Some(d) => Some(stats[d := DayStat(stats[d].name, stats[d].count + 1, stats[d].totalAttendees + OrZero(e.attendees))])
  }

  /** The accumulators after the first `n` events, or `None` once an update has thrown. */
  function DayTally(events: seq<EventRecord>, dayOf: string -> Option<Day>, n: nat): (r: Option<seq<DayStat>>)
    requires n <= |events|
    ensures r.Some? ==> |r.value| == 7
  {
    if n == 0 then Some(InitialDayStats())
    else match DayTally(events, dayOf, n - 1)
      case None => None
      case Some(stats) => RecordEvent(stats, events[n - 1], dayOf)
  }

  /** Event i is counted but its start has no weekday. */
  predicate Unparsable(events: seq<EventRecord>, dayOf: string -> Option<Day>, i: nat)
    requires i < |events|
  {
    Counted(events[i]) && dayOf(events[i].start.value).None?
  }

  /** The number of counted events among the first `n` whose weekday is `d`. */
  function CountOn(events: seq<EventRecord>, dayOf: string -> Option<Day>, d: Day, n: nat): nat
    requires n <= |events|
  {
    if n == 0 then 0
    else CountOn(events, dayOf, d, n - 1) + if Counted(events[n - 1]) && dayOf(events[n - 1].start.value) == Some(d) then 1 else 0
  }

  /** The attendees of the counted events among the first `n` whose weekday is `d`. */
  function TotalOn(events: seq<EventRecord>, dayOf: string -> Option<Day>, d: Day, n: nat): real
    requires n <= |events|
  {
    if n == 0 then 0.0
    else TotalOn(events, dayOf, d, n - 1) + if Counted(events[n - 1]) && dayOf(events[n - 1].start.value) == Some(d) then OrZero(events[n - 1].attendees) else 0.0
  }

  /** The number of counted events among the first `n`. */
  function CountedEvents(events: seq<EventRecord>, n: nat): nat
    requires n <= |events|
  {
    if n == 0 then 0 else CountedEvents(events, n - 1) + if Counted(events[n - 1]) then 1 else 0
  }

  /** The tally fails exactly when some counted event has an unparsable start. */
  lemma {:induction false} DayTallyFails(events: seq<EventRecord>, dayOf: string -> Option<Day>, n: nat)
    requires n <= |events|
    ensures DayTally(events, dayOf, n).None? <==> exists i :: 0 <= i < n && Unparsable(events, dayOf, i)
  {
    if n > 0 {
      DayTallyFails(events, dayOf, n - 1);
      if Unparsable(events, dayOf, n - 1) {
        assert DayTally(events, dayOf, n).None?;
      }
    }
  }

  /**
   * When the tally succeeds, weekday d's accumulator holds its name, the number
   * of counted events falling on d, and their attendees.
   */
  lemma {:induction false} DayTallyContents(events: seq<EventRecord>, dayOf: string -> Option<Day>, n: nat, d: Day)
    requires n <= |events| && DayTally(events, dayOf, n).Some?
    ensures DayTally(events, dayOf, n).value[d]
         == DayStat(DayName(d), CountOn(events, dayOf, d, n), TotalOn(events, dayOf, d, n))
  {
    if n > 0 {
      DayTallyContents(events, dayOf, n - 1, d);
    }
  }

  /** Σ count over all seven accumulators: every counted event is counted once. */
  lemma {:induction false} DayTallyCountSum(events: seq<EventRecord>, dayOf: string -> Option<Day>, n: nat)
    requires n <= |events| && DayTally(events, dayOf, n).Some?
    ensures StableSort.Sum(DayTally(events, dayOf, n).value, StatCount) == CountedEvents(events, n)
  {
    if n == 0 {
      StableSort.SumZero(InitialDayStats(), StatCount);
    } else {
      var stats := DayTally(events, dayOf, n - 1).value;
      DayTallyCountSum(events, dayOf, n - 1);
      var e := events[n - 1];
      if Counted(e) {
        var d := dayOf(e.start.value).value;
        var updated := DayStat(stats[d].name, stats[d].count + 1, stats[d].totalAttendees + OrZero(e.attendees));
        StableSort.SumUpdate(stats, d, updated, StatCount);
      }
    }
  }

  function StatCount(s: DayStat): int {
    s.count
  }

  /** `Math.round(total / count)`, or 0 for an empty accumulator. */
  function Average(total: real, count: nat): (avg: int)
    ensures count > 0 ==> total / count as real - 0.5 < avg as real <= total / count as real + 0.5
    ensures count == 0 ==> avg == 0
  {
    if count > 0 then Round(total / count as real) else 0
  }

  /** An output entry: the accumulator spread with its `avgAttendees`. */
  datatype DayAverage = DayAverage(name: string, count: nat, totalAttendees: real, avgAttendees: int)

  function AvgKey(a: DayAverage): int {
    a.avgAttendees
  }

  /** The position of the entry's weekday in the week, Sunday first. */
  function WeekRank(a: DayAverage): int {
    DayRank(a.name)
  }

  function EntryCount(a: DayAverage): int {
    a.count
  }

  /** `Object.values(dayStats).map(…)`: the accumulators in weekday order, each with its average. */
  function DayAverages(stats: seq<DayStat>): (r: seq<DayAverage>)
    ensures |r| == |stats|
    ensures forall d :: 0 <= d < |r| ==> r[d] == DayAverage(stats[d].name, stats[d].count, stats[d].totalAttendees, Average(stats[d].totalAttendees, stats[d].count))
  {
    seq(|stats|, d requires 0 <= d < |stats| => DayAverage(stats[d].name, stats[d].count, stats[d].totalAttendees, Average(stats[d].totalAttendees, stats[d].count)))
  }

  /** The result of `analyzeBestDays(events)`; `None` when an update throws. */
  function BestDaysOf(events: seq<EventRecord>, dayOf: string -> Option<Day>): Option<seq<DayAverage>> {
    if |events| == 0 then Some([])
    else match DayTally(events, dayOf, |events|)
      case None => None
      case Some(stats) => Some(StableSort.SortDescending(DayAverages(stats), AvgKey))
  }

  /** An update that has thrown stays thrown. */
  lemma {:induction false} DayTallyStaysFailed(events: seq<EventRecord>, dayOf: string -> Option<Day>, i: nat, n: nat)
    requires i <= n <= |events| && DayTally(events, dayOf, i).None?
    ensures DayTally(events, dayOf, n).None?
  {
    if i < n {
      DayTallyStaysFailed(events, dayOf, i, n - 1);
    }
  }

  /** `analyzeBestDays`: tally the counted events per weekday, then average and sort. */
  method AnalyzeBestDays(events: seq<EventRecord>, dayOf: string -> Option<Day>) returns (result: Option<seq<DayAverage>>)
    ensures result == BestDaysOf(events, dayOf)
  {
    if |events| == 0 {
      return Some([]);
    }
    var stats := InitialDayStats();
    var i := 0;
    while i < |events|
      invariant 0 <= i <= |events|
      invariant DayTally(events, dayOf, i) == Some(stats)
    {
      var e := events[i];
      if e.start.Some? && e.start.value != "" && !e.attendees.Undefined? {
        var day := dayOf(e.start.value);
        if day.None? {
          DayTallyStaysFailed(events, dayOf, i + 1, |events|);
          return None;
        }
        var d := day.value;
        stats := stats[d := DayStat(stats[d].name, stats[d].count + 1, stats[d].totalAttendees + OrZero(e.attendees))];
      }
      i := i + 1;
    }
    result := Some(StableSort.SortDescending(DayAverages(stats), AvgKey));
  }

  /**
   * With at least one event and no throw, the result has one entry per
   * weekday, each with its count, total and average, sorted by non-increasing
   * average with ties in Sunday-to-Saturday order.
   */
  lemma BestDaysResult(events: seq<EventRecord>, dayOf: string -> Option<Day>)
    requires |events| > 0 && BestDaysOf(events, dayOf).Some?
    ensures var r := BestDaysOf(events, dayOf).value;
      && |r| == 7
      && multiset(r) == multiset(DayAverages(DayTally(events, dayOf, |events|).value))
      && StableSort.StablyDescending(r, AvgKey, WeekRank)
      && StableSort.Sum(r, EntryCount) == CountedEvents(events, |events|)
  {
    var stats := DayTally(events, dayOf, |events|).value;
    var averages := DayAverages(stats);
    forall i, j | 0 <= i < j < |averages| ensures WeekRank(averages[i]) < WeekRank(averages[j]) {
      DayTallyContents(events, dayOf, |events|, i);
      DayTallyContents(events, dayOf, |events|, j);
      DayRankOfName(i);
      DayRankOfName(j);
    }
    StableSort.SortStable(averages, AvgKey, WeekRank);
    DayTallyCountSum(events, dayOf, |events|);
    StableSort.SortSum(averages, AvgKey, EntryCount);
    AveragesCountSum(stats);
  }

  lemma {:induction false} AveragesCountSum(stats: seq<DayStat>)
    ensures StableSort.Sum(DayAverages(stats), EntryCount) == StableSort.Sum(stats, StatCount)
  {
    if stats != [] {
      AveragesCountSum(stats[1..]);
      assert DayAverages(stats)[1..] == DayAverages(stats[1..]);
    }
  }

  // ---------------------------------------------------------------------
  // Seasons: analyzeSeasonality
  // ---------------------------------------------------------------------

  /** The four buckets, in the order the table lists them. */
  datatype Season = Winter | Spring | Summer | Fall

  /** The `k`-th bucket in table order. */
  function SeasonAt(k: nat): Season
    requires k < 4
  {
    if k == 0 then Winter else if k == 1 then Spring else if k == 2 then Summer else Fall
  }

  /** The position of a bucket in table order. */
  function SeasonIndex(s: Season): nat {
    match s
    case Winter => 0 case Spring => 1 case Summer => 2 case Fall => 3
  }

  lemma SeasonIndexAt(k: nat)
    requires k < 4
    ensures SeasonIndex(SeasonAt(k)) == k
  {
  }

  /** The months each bucket collects. */
  function SeasonMonths(s: Season): seq<int> {
    match s
    case Winter => [12, 1, 2] case Spring => [3, 4, 5] case Summer => [6, 7, 8] case Fall => [9, 10, 11]
  }

  /** `data.months.includes(month)`: `NaN` (here `None`) is in no bucket. */
  predicate InSeason(s: Season, month: Option<int>) {
    month.Some? && month.value in SeasonMonths(s)
  }

  /** The season of a calendar month, by ranges; `None` for any other number. */
  function SeasonOf(m: int): Option<Season> {
    if m == 12 || 1 <= m <= 2 then Some(Winter)
    else if 3 <= m <= 5 then Some(Spring)
    else if 6 <= m <= 8 then Some(Summer)
    else if 9 <= m <= 11 then Some(Fall)
    else None
  }

  /** The month lists agree with the ranges. */
  lemma InSeasonIff(s: Season, month: Option<int>)
    ensures InSeason(s, month) <==> month.Some? && SeasonOf(month.value) == Some(s)
  {
    if month.Some? {
      var m := month.value;
      match s
      case Winter => assert m in [12, 1, 2] <==> m == 12 || m == 1 || m == 2;
      case Spring => assert m in [3, 4, 5] <==> m == 3 || m == 4 || m == 5;
      case Summer => assert m in [6, 7, 8] <==> m == 6 || m == 7 || m == 8;
      case Fall => assert m in [9, 10, 11] <==> m == 9 || m == 10 || m == 11;
    }
  }

  /** Every calendar month is in exactly one season; any other value is in none. */
  lemma SeasonPartition(month: Option<int>)
    ensures (exists s :: InSeason(s, month)) <==> month.Some? && 1 <= month.value <= 12
    ensures forall s1, s2 :: InSeason(s1, month) && InSeason(s2, month) ==> s1 == s2
  {
    forall s ensures InSeason(s, month) <==> month.Some? && SeasonOf(month.value) == Some(s) {
      InSeasonIff(s, month);
    }
    if month.Some? && 1 <= month.value <= 12 {
      assert InSeason(SeasonOf(month.value).value, month);
    }
  }

  /** `key.split('-')[1]`: the text between the first and the second `-`; absent without a `-`. */
  function SecondField(key: string): (f: Option<string>)
    ensures f.Some? ==> '-' !in f.value
  {
    var p := IndexOf(key, '-');
    if p == |key| then None
    else
      var rest := key[p + 1..];
      Some(rest[..IndexOf(rest, '-')])
  }

  /** The white space `parseInt` skips before the number. */
  predicate IsJsSpace(c: char) {
    c == ' ' || c == '\t' || c == '\n' || c == '\r' || c == '\U{000B}' || c == '\U{000C}'
    || c == '\U{00A0}' || c == '\U{1680}' || '\U{2000}' <= c <= '\U{200A}'
    || c == '\U{2028}' || c == '\U{2029}' || c == '\U{202F}' || c == '\U{205F}'
    || c == '\U{3000}' || c == '\U{FEFF}'
  }

  /** `s` without its leading white space. */
  function TrimStart(s: string): string {
    if s != [] && IsJsSpace(s[0]) then TrimStart(s[1..]) else s
  }

  /** The value of `c` as a digit in base 10 or 16; `None` when it is not one. */
  function DigitIn(c: char, radix: nat): Option<nat> {
    if '0' <= c <= '9' then Some(c as int - '0' as int)
    else if radix == 16 && 'a' <= c <= 'f' then Some(c as int - 'a' as int + 10)
    else if radix == 16 && 'A' <= c <= 'F' then Some(c as int - 'A' as int + 10)
    else None
  }

  /** The longest prefix of `s` made of digits of the radix. */
  function DigitPrefix(s: string, radix: nat): string {
    if s != [] && DigitIn(s[0], radix).Some? then [s[0]] + DigitPrefix(s[1..], radix) else []
  }

  /** The value of a digit string in the radix, most significant digit first. */
  function RadixValue(s: string, radix: nat): nat {
    if s == [] then 0 else radix * RadixValue(s[..|s| - 1], radix) + DigitIn(s[|s| - 1], radix).GetOr(0)
  }

  /**
   * `parseInt(s)` without a radix: skip leading white space, read an optional
   * sign, then the longest run of digits, hexadecimal after `0x`/`0X` and
   * decimal otherwise; `None` (`NaN`) when there is no digit.
   */
  function ParseInt(s: string): Option<int> {
    var t := TrimStart(s);
    var sign := if t != [] && t[0] == '-' then -1 else 1;
    var u := if t != [] && (t[0] == '-' || t[0] == '+') then t[1..] else t;
    var hex := |u| >= 2 && u[0] == '0' && (u[1] == 'x' || u[1] == 'X');
    var radix := if hex then 16 else 10;
    var digits := DigitPrefix(if hex then u[2..] else u, radix);
    if digits == [] then None else Some(sign * RadixValue(digits, radix))
  }

  lemma {:induction false} DigitPrefixStops(d: string, rest: string)
    requires AllDigits(d)
    requires rest == [] || !IsDigit(rest[0])
    ensures DigitPrefix(d + rest, 10) == d
  {
    if d != [] {
      DigitPrefixStops(d[1..], rest);
      assert (d + rest)[1..] == d[1..] + rest;
      assert [d[0]] + d[1..] == d;
    } else {
      assert d + rest == rest;
    }
  }

  lemma {:induction false} RadixValueDecimal(d: string)
    requires AllDigits(d)
    ensures RadixValue(d, 10) == DecimalValue(d)
  {
    if d != [] {
      RadixValueDecimal(d[..|d| - 1]);
    }
  }

  /**
   * `parseInt` reads a leading run of decimal digits and ignores what follows
   * the run (unless the run is a lone `0` followed by `x`, the hexadecimal
   * prefix).
   */
  lemma ParseIntPrefix(d: string, rest: string)
    requires AllDigits(d) && d != []
    requires rest == [] || !IsDigit(rest[0])
    requires !(d == "0" && rest != [] && (rest[0] == 'x' || rest[0] == 'X'))
    ensures ParseInt(d + rest) == Some(DecimalValue(d))
  {
    var s := d + rest;
    assert s[0] == d[0] && IsDigit(d[0]);
    assert TrimStart(s) == s;
    assert !(|s| >= 2 && s[0] == '0' && (s[1] == 'x' || s[1] == 'X')) by {
      if |s| >= 2 && s[0] == '0' && |d| >= 2 {
        assert s[1] == d[1] && IsDigit(d[1]);
      }
      if |d| == 1 && rest != [] {
        assert s[1] == rest[0];
        assert d == [d[0]];
      }
    }
    DigitPrefixStops(d, rest);
    RadixValueDecimal(d);
  }

  /** `parseInt(monthStr)` on `item.month.split('-')[1]`; `parseInt(undefined)` is `NaN`. */
  function MonthNumber(key: string): Option<int> {
    match SecondField(key)
    case None => None
    case Some(field) => ParseInt(field)
  }

  /** The second `-`-separated field of `y-m` is `m` when neither part holds a `-`. */
  lemma SecondFieldOfPair(y: string, m: string)
    requires AllDigits(y) && AllDigits(m)
    ensures SecondField(y + "-" + m) == Some(m)
  {
    var key := y + "-" + m;
    assert key[|y|] == '-';
    forall i | 0 <= i < |y| ensures key[i] != '-' {
      assert key[i] == y[i] && IsDigit(y[i]);
    }
    IndexOfFirst(key, '-', |y|);
    assert key[|y| + 1..] == m;
    assert IndexOf(m, '-') == |m| by {
      forall i | 0 <= i < |m| ensures m[i] != '-' {
        assert IsDigit(m[i]);
      }
      IndexOfAbsent(m, '-');
    }
    assert m[..|m|] == m;
  }

  /** A rendered month key reads back its month in the seasonal analysis. */
  lemma MonthNumberOfKey(ym: YearMonth)
    ensures MonthNumber(MonthKey(ym)) == Some(ym.month)
  {
    var y, m := NatToString(ym.year), ZeroPad(ym.month, 2);
    SecondFieldOfPair(y, m);
    ParseIntPrefix(m, []);
    assert m + [] == m;
    ZeroPadRoundTrip(ym.month, 2);
  }

  /** One bucket `{ attendees, revenue, count }`. */
  datatype SeasonData = SeasonData(attendees: real, revenue: real, count: nat)

  /** Adds one month's figures to a bucket. */
  function AddMonth(data: SeasonData, item: MonthlyTrend): SeasonData {
    SeasonData(data.attendees + OrZero(item.attendees), data.revenue + OrZero(item.revenue), data.count + 1)
  }

  /**
   * One step of the `forEach`: every bucket whose months include `month`
   * takes the item's figures.
   */
  function AddToSeasons(data: seq<SeasonData>, month: Option<int>, item: MonthlyTrend): (r: seq<SeasonData>)
    requires |data| == 4
    ensures |r| == 4
  {
    seq(4, k requires 0 <= k < 4 => if InSeason(SeasonAt(k), month) then AddMonth(data[k], item) else data[k])
  }

  /**
   * The buckets after the first `n` months, reading each month number with
   * `monthOf` (the analysis passes `MonthNumber`).
   */
  function SeasonTally(trends: seq<MonthlyTrend>, monthOf: string -> Option<int>, n: nat): (r: seq<SeasonData>)
    requires n <= |trends|
    ensures |r| == 4
  {
    if n == 0 then seq(4, _ => SeasonData(0.0, 0.0, 0))
    else AddToSeasons(SeasonTally(trends, monthOf, n - 1), monthOf(trends[n - 1].month), trends[n - 1])
  }

  /** The figures of the first `n` months that fall in season `s`. */
  function SeasonSum(trends: seq<MonthlyTrend>, monthOf: string -> Option<int>, s: Season, n: nat): SeasonData
    requires n <= |trends|
  {
    if n == 0 then SeasonData(0.0, 0.0, 0)
    else
      var prior := SeasonSum(trends, monthOf, s, n - 1);
      if InSeason(s, monthOf(trends[n - 1].month)) then AddMonth(prior, trends[n - 1]) else prior
  }

  /** Bucket k holds the totals and the number of the months whose month number lies in its season. */
  lemma {:induction false} SeasonTallyContents(trends: seq<MonthlyTrend>, monthOf: string -> Option<int>, n: nat, k: nat)
    requires n <= |trends| && k < 4
    ensures SeasonTally(trends, monthOf, n)[k] == SeasonSum(trends, monthOf, SeasonAt(k), n)
  {
    if n > 0 {
      SeasonTallyContents(trends, monthOf, n - 1, k);
    }
  }

  /** The number of the first `n` months whose month number is a calendar month. */
  function CalendarMonths(trends: seq<MonthlyTrend>, monthOf: string -> Option<int>, n: nat): nat
    requires n <= |trends|
  {
    if n == 0 then 0
    else
      var m := monthOf(trends[n - 1].month);
      CalendarMonths(trends, monthOf, n - 1) + if m.Some? && 1 <= m.value <= 12 then 1 else 0
  }

  function DataCount(d: SeasonData): int {
    d.count
  }

  /** The sum over a four-element sequence, written out. */
  lemma FourSum<T>(s: seq<T>, f: T -> int)
    requires |s| == 4
    ensures StableSort.Sum(s, f) == f(s[0]) + f(s[1]) + f(s[2]) + f(s[3])
  {
    var t1 := s[1..];
    var t2 := t1[1..];
    var t3 := t2[1..];
    assert t3[1..] == [];
    assert StableSort.Sum(t3, f) == f(s[3]);
    assert StableSort.Sum(t2, f) == f(s[2]) + StableSort.Sum(t3, f);
    assert StableSort.Sum(t1, f) == f(s[1]) + StableSort.Sum(t2, f);
  }

  /** A month number lands in one bucket when it is a calendar month and in none otherwise. */
  lemma SeasonHits(month: Option<int>)
    ensures (if InSeason(Winter, month) then 1 else 0) + (if InSeason(Spring, month) then 1 else 0)
      + (if InSeason(Summer, month) then 1 else 0) + (if InSeason(Fall, month) then 1 else 0)
      == if month.Some? && 1 <= month.value <= 12 then 1 else 0
  {
    InSeasonIff(Winter, month);
    InSeasonIff(Spring, month);
    InSeasonIff(Summer, month);
    InSeasonIff(Fall, month);
  }

  /** The buckets' counts add up to the number of months with a calendar month number. */
  lemma {:induction false} SeasonCountSum(trends: seq<MonthlyTrend>, monthOf: string -> Option<int>, n: nat)
    requires n <= |trends|
    ensures StableSort.Sum(SeasonTally(trends, monthOf, n), DataCount) == CalendarMonths(trends, monthOf, n)
  {
    if n == 0 {
      FourSum(SeasonTally(trends, monthOf, 0), DataCount);
    } else {
      SeasonCountSum(trends, monthOf, n - 1);
      FourSum(SeasonTally(trends, monthOf, n), DataCount);
      FourSum(SeasonTally(trends, monthOf, n - 1), DataCount);
      SeasonHits(monthOf(trends[n - 1].month));
    }
  }

  /** An insight `{ season, avgAttendees, avgRevenue }`. */
  datatype Insight = Insight(season: Season, avgAttendees: int, avgRevenue: int)

  function InsightKey(i: Insight): int {
    i.avgAttendees
  }

  /** The position of the insight's season in the table, Winter first. */
  function SeasonRank(i: Insight): int {
    SeasonIndex(i.season)
  }

  /** `Object.entries(seasonalData).map(…)`: one insight per bucket, in table order. */
  function Insights(data: seq<SeasonData>): (r: seq<Insight>)
    requires |data| == 4
    ensures |r| == 4
  {
    seq(4, k requires 0 <= k < 4 => Insight(SeasonAt(k), Average(data[k].attendees, data[k].count), Average(data[k].revenue, data[k].count)))
  }

  datatype Seasonality =
    | /** `{ pattern: 'insufficient_data', insights: [] }` */
      InsufficientData
    | /** `{ pattern: 'analyzed', insights }` */
      Analyzed(insights: seq<Insight>)

  /** A seasonal analysis needs at least this many months. */
  const MinSeasonalityHistory: nat := 4

  /** The result of `analyzeSeasonality(monthlyTrends)`. */
  function SeasonalityOf(trends: seq<MonthlyTrend>): (r: Seasonality)
    ensures r.InsufficientData? <==> |trends| < MinSeasonalityHistory
  {
    if |trends| < MinSeasonalityHistory then InsufficientData
    else Analyzed(StableSort.SortDescending(Insights(SeasonTally(trends, MonthNumber, |trends|)), InsightKey))
  }

  /** The `for … of Object.entries(seasonalData)` loop for one month. */
  method AddToBuckets(data: seq<SeasonData>, month: Option<int>, item: MonthlyTrend) returns (next: seq<SeasonData>)
    requires |data| == 4
    ensures next == AddToSeasons(data, month, item)
  {
    next := data;
    var j := 0;
    while j < 4
      invariant 0 <= j <= 4 && |next| == 4
      invariant forall k :: 0 <= k < j ==> next[k] == AddToSeasons(data, month, item)[k]
      invariant forall k :: j <= k < 4 ==> next[k] == data[k]
    {
      if InSeason(SeasonAt(j), month) {
        next := next[j := SeasonData(next[j].attendees + OrZero(item.attendees), next[j].revenue + OrZero(item.revenue), next[j].count + 1)];
      }
      j := j + 1;
    }
  }

  /**
   * The `forEach` over the months.  The month reader is a parameter so that
   * the loop's proof does not depend on how `parseInt` reads a key; the
   * analysis passes `MonthNumber`.
   */
  method TallySeasons(trends: seq<MonthlyTrend>, monthOf: string -> Option<int>) returns (data: seq<SeasonData>)
    ensures data == SeasonTally(trends, monthOf, |trends|)
  {
    data := seq(4, _ => SeasonData(0.0, 0.0, 0));
    var i := 0;
    while i < |trends|
      invariant 0 <= i <= |trends|
      invariant data == SeasonTally(trends, monthOf, i)
    {
      var item := trends[i];
      var month := monthOf(item.month);
      data := AddToBuckets(data, month, item);
      i := i + 1;
    }
  }

  /** `analyzeSeasonality`: tally the buckets, then average and sort them. */
  method AnalyzeSeasonality(trends: seq<MonthlyTrend>) returns (result: Seasonality)
    ensures result == SeasonalityOf(trends)
  {
    if |trends| < MinSeasonalityHistory {
      return InsufficientData;
    }
    var data := TallySeasons(trends, MonthNumber);
    result := Analyzed(StableSort.SortDescending(Insights(data), InsightKey));
  }

  /**
   * With enough months: exactly four insights, one per season, sorted by
   * non-increasing average attendance with ties in Winter, Spring, Summer,
   * Fall order, each the rounded average of its bucket.
   */
  lemma SeasonalityResult(trends: seq<MonthlyTrend>)
    requires |trends| >= MinSeasonalityHistory
    ensures var r := SeasonalityOf(trends);
      && r.Analyzed?
      && |r.insights| == 4
      && multiset(r.insights) == multiset(Insights(SeasonTally(trends, MonthNumber, |trends|)))
      && StableSort.StablyDescending(r.insights, InsightKey, SeasonRank)
  {
    var insights := Insights(SeasonTally(trends, MonthNumber, |trends|));
    forall i, j | 0 <= i < j < 4 ensures SeasonRank(insights[i]) < SeasonRank(insights[j]) {
      SeasonIndexAt(i);
      SeasonIndexAt(j);
    }
    StableSort.SortStable(insights, InsightKey, SeasonRank);
  }

  /**
   * Each season's insight is the rounded average attendance and revenue over
   * exactly the months whose month number falls in that season (0 for a
   * season with no month).
   */
  lemma SeasonInsight(trends: seq<MonthlyTrend>, k: nat)
    requires k < 4
    ensures var sum := SeasonSum(trends, MonthNumber, SeasonAt(k), |trends|);
      Insights(SeasonTally(trends, MonthNumber, |trends|))[k]
        == Insight(SeasonAt(k), Average(sum.attendees, sum.count), Average(sum.revenue, sum.count))
  {
    SeasonTallyContents(trends, MonthNumber, |trends|, k);
  }
}
