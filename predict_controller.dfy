/** The prediction controller (backend/src/controllers/
    predictControllers_complex_backup.js): it turns the per-month,
    per-category aggregation rows into a dense category-by-month matrix,
    chooses between a totals-only statistical forecast and the forecasting
    service, checks the service's answer for plausibility, and apportions
    forecast totals back onto categories with the largest-remainder method.

    The aggregation query and the forecasting service are inputs: the rows
    as the database returns them and the service's outcome. */
module PredictController {
  import opened Numeric
  import opened Text
  import opened Sequences
  import opened Outcomes
  import opened JsValues
  import opened Allocation

  /** One aggregation row: the "%Y-%m" month, the category (absent, null or
      empty are all falsy) and the summed amount. */
  datatype Row = Row(month: string, category: Option<string>, total: real)

  /** One entry of input_summary. */
  datatype Summary = Summary(category: string, months: nat, average: int)

  /** A value thrown by the forecasting call: an ApiError with its status, or
      anything else. */
  datatype Thrown = ApiThrow(err: HttpError) | OtherThrow

  /** The part of the service's result the controller reads. */
  datatype ServiceResult = ServiceResult(
    categories: Option<seq<(string, seq<JsNum>)>>,
    total: Option<seq<JsNum>>,
    predictionMethod: Option<string>)

  /** What `await forecast(categoryMap, horizon)` produced: a (possibly
      missing) result, or a rejection. */
  datatype ServiceOutcome = Returned(result: Option<ServiceResult>) | Threw(thrown: Thrown)

  /** The JSON body of a successful response. */
  datatype Response = Response(
    inputSummary: seq<Summary>,
    predictionByCategory: seq<(string, seq<JsNum>)>,
    totalPrediction: seq<JsNum>,
    predictionMethod: string)

  const MinPoints: nat := 6
  const MonthlyGrowth: real := 1.015
  const TotalRecentWindow: nat := 6
  const RecentWindow: nat := 3

  const NotEnoughData := HttpError(400, "Not enough data to generate prediction")
  const InvalidData := HttpError(500, "Prediction service returned invalid data")
  const PredictionFailed := HttpError(500, "Prediction failed")

  /** `r._id.category || 'Uncategorized'`. */
  function CategoryName(c: Option<string>): (name: string)
    ensures name != ""
    ensures c.Some? && c.value != "" ==> name == c.value
    ensures c.None? || c.value == "" ==> name == "Uncategorized"
  {
    if c.Some? && c.value != "" then c.value else "Uncategorized"
  }

  function RowMonths(rows: seq<Row>): (ms: seq<string>)
    ensures |ms| == |rows| && forall k :: 0 <= k < |rows| ==> ms[k] == rows[k].month
  {
    seq(|rows|, k requires 0 <= k < |rows| => rows[k].month)
  }

  function RowCategories(rows: seq<Row>): (cs: seq<string>)
    ensures |cs| == |rows| && forall k :: 0 <= k < |rows| ==> cs[k] == CategoryName(rows[k].category)
  {
    seq(|rows|, k requires 0 <= k < |rows| => CategoryName(rows[k].category))
  }

  function StringOrder(): (lt: (string, string) -> bool)
  {
    (a: string, b: string) => StringLess(a, b)
  }

  lemma StringOrderStrict()
    ensures StrictOrder(StringOrder())
  {
    forall a: string, b: string, c: string | StringLess(a, b) && StringLess(b, c)
      ensures StringLess(a, c)
    {
      StringLessTransitive(a, b, c);
    }
    forall a: string
      ensures !StringLess(a, a)
    {
      StringLessIrreflexive(a);
    }
  }

  /** `[...new Set(rows.map(r => r._id.month))].sort()`: every month of the
      rows, once each, in strictly increasing string order. */
  function UniqueMonths(rows: seq<Row>): (ms: seq<string>)
    ensures forall x :: x in ms <==> x in RowMonths(rows)
    ensures NoDuplicates(ms)
    ensures forall i, j :: 0 <= i < j < |ms| ==> StringLess(ms[i], ms[j])
  {
    var d := Dedup(RowMonths(rows));
    var ms := SortBy(d, StringOrder());
    SortedMonths(d, ms);
    ms
  }

  lemma SortedMonths(d: seq<string>, ms: seq<string>)
    requires NoDuplicates(d) && ms == SortBy(d, StringOrder())
    ensures forall x :: x in ms <==> x in d
    ensures NoDuplicates(ms)
    ensures forall i, j :: 0 <= i < j < |ms| ==> StringLess(ms[i], ms[j])
  {
    StringOrderStrict();
    SortBySorted(d, StringOrder());
    MultisetNoDuplicates(d, ms);
    forall x
      ensures x in ms <==> x in d
    {
      assert x in ms <==> x in multiset(ms);
      assert x in d <==> x in multiset(d);
    }
    forall i, j | 0 <= i < |ms| && 0 <= j < |ms| && ms[i] != ms[j]
      ensures StringLess(ms[i], ms[j]) || StringLess(ms[j], ms[i])
    {
      StringLessTotal(ms[i], ms[j]);
    }
    SortedStrict(ms, StringOrder());
  }

  /** `new Set(rows.map(r => r._id.category || 'Uncategorized'))`: each
      category name once, in order of first appearance. */
  function UniqueCategories(rows: seq<Row>): (cs: seq<string>)
    ensures NoDuplicates(cs)
    ensures forall x :: x in cs <==> x in RowCategories(rows)
    ensures forall c :: 0 <= c < |cs| ==> cs[c] != ""
    ensures |rows| > 0 ==> |cs| > 0
  {
    var rc := RowCategories(rows);
    var cs := Dedup(rc);
    assert |rows| > 0 ==> rc[0] in cs;
    assert forall c :: 0 <= c < |cs| ==> cs[c] != "" by {
      forall c | 0 <= c < |cs|
        ensures cs[c] != ""
      {
        assert cs[c] in rc;
      }
    }
    cs
  }

  /** The total of the last row for this category and month, if any. */
  function LastTotal(rows: seq<Row>, cat: string, month: string): Option<real>
  {
    if |rows| == 0 then None
    else
      var r := rows[|rows| - 1];
      if CategoryName(r.category) == cat && r.month == month then Some(r.total)
      else LastTotal(rows[..|rows| - 1], cat, month)
  }

  /** The matrix cell of a category and month: `Math.round(row.total)` of the
      last row written there, 0 when no row has that key. */
  function Cell(rows: seq<Row>, cat: string, month: string): int
  {
    match LastTotal(rows, cat, month)
    case None => 0
    case Some(v) => Round(v)
  }

  /** A cell holds the rounded total of the last row with its key. */
  lemma {:induction false} LastRowWins(rows: seq<Row>, k: int)
    requires 0 <= k < |rows|
    requires forall k' :: k < k' < |rows| ==>
      !(CategoryName(rows[k'].category) == CategoryName(rows[k].category) && rows[k'].month == rows[k].month)
    ensures Cell(rows, CategoryName(rows[k].category), rows[k].month) == Round(rows[k].total)
  {
    if k < |rows| - 1 {
      LastRowWins(rows[..|rows| - 1], k);
    }
  }

  /** A cell no row writes stays 0. */
  lemma {:induction false} CellWithoutRow(rows: seq<Row>, cat: string, month: string)
    requires forall k :: 0 <= k < |rows| ==> !(CategoryName(rows[k].category) == cat && rows[k].month == month)
    ensures Cell(rows, cat, month) == 0
  {
    if |rows| > 0 {
      CellWithoutRow(rows[..|rows| - 1], cat, month);
    }
  }

  /** The dense matrix: one series per category, one cell per month. */
  function Matrix(rows: seq<Row>, cats: seq<string>, months: seq<string>): (m: seq<seq<int>>)
    ensures |m| == |cats| && forall c :: 0 <= c < |cats| ==> |m[c]| == |months|
  {
    seq(|cats|, c requires 0 <= c < |cats| =>
      seq(|months|, j requires 0 <= j < |months| => Cell(rows, cats[c], months[j])))
  }

  /** `monthIndex.get(x)` / the key of `categoryMap`: the position of x. */
  function IndexOf(s: seq<string>, x: string): (i: nat)
    requires x in s
    ensures i < |s| && s[i] == x
  {
    if s[0] == x then 0 else 1 + IndexOf(s[1..], x)
  }

  /** The matrix loop: every series starts as `Array(n).fill(0)` and each row
      assigns its rounded total into its cell. */
  method BuildMatrix(rows: seq<Row>, cats: seq<string>, months: seq<string>) returns (m: seq<seq<int>>)
    requires NoDuplicates(cats) && NoDuplicates(months)
    requires forall k :: 0 <= k < |rows| ==> CategoryName(rows[k].category) in cats
    ensures m == Matrix(rows, cats, months)
  {
    m := seq(|cats|, _ => Repeat(0, |months|));
    var k := 0;
    while k < |rows|
      invariant 0 <= k <= |rows|
      invariant |m| == |cats| && forall c :: 0 <= c < |cats| ==> |m[c]| == |months|
      invariant forall c, j :: 0 <= c < |cats| && 0 <= j < |months| ==> m[c][j] == Cell(rows[..k], cats[c], months[j])
    {
      var row := rows[k];
      var cat := CategoryName(row.category);
      assert rows[..k + 1][..k] == rows[..k] && rows[..k + 1][k] == row;
      if row.month in months {
        var ci := IndexOf(cats, cat);
        var idx := IndexOf(months, row.month);
        m := m[ci := m[ci][idx := Round(row.total)]];
      }
      k := k + 1;
    }
    assert rows[..|rows|] == rows;
    forall c | 0 <= c < |cats|
      ensures m[c] == Matrix(rows, cats, months)[c]
    {
    }
  }

  /** `alignedTotal`: for every month, the sum over categories of that
      month's cell. */
  function AlignedTotal(m: seq<seq<int>>, n: nat): (a: seq<int>)
    requires forall c :: 0 <= c < |m| ==> |m[c]| == n
    ensures |a| == n && forall i :: 0 <= i < n ==> a[i] == SumInt(Column(m, i))
  {
    seq(n, i requires 0 <= i < n => SumInt(Column(m, i)))
  }

  /** The sum of each category's series. */
  function SeriesSums(m: seq<seq<int>>): (s: seq<int>)
    ensures |s| == |m| && forall c :: 0 <= c < |m| ==> s[c] == SumInt(m[c])
  {
    seq(|m|, c requires 0 <= c < |m| => SumInt(m[c]))
  }

  /** The aligned totals add up to everything in the matrix. */
  lemma {:induction false} AlignedTotalConserves(m: seq<seq<int>>, n: nat)
    requires forall c :: 0 <= c < |m| ==> |m[c]| == n
    ensures SumInt(AlignedTotal(m, n)) == SumInt(SeriesSums(m))
  {
    var k := |m|;
    if k == 0 {
      ZeroSum(AlignedTotal(m, n));
    } else {
      var init := m[..k - 1];
      AlignedTotalConserves(init, n);
      AlignedStep(m, n);
      SumIntPointwise(AlignedTotal(init, n), m[k - 1], AlignedTotal(m, n));
      assert SeriesSums(m)[..k - 1] == SeriesSums(init);
    }
  }

  /** Adding a last category adds its series to the aligned totals. */
  lemma AlignedStep(m: seq<seq<int>>, n: nat)
    requires |m| > 0 && forall c :: 0 <= c < |m| ==> |m[c]| == n
    ensures forall i :: 0 <= i < n ==> AlignedTotal(m, n)[i] == AlignedTotal(m[..|m| - 1], n)[i] + m[|m| - 1][i]
  {
    var k := |m|;
    forall i | 0 <= i < n
      ensures AlignedTotal(m, n)[i] == AlignedTotal(m[..k - 1], n)[i] + m[k - 1][i]
    {
      assert Column(m, i)[..k - 1] == Column(m[..k - 1], i);
    }
  }

  lemma {:induction false} ZeroSum(a: seq<int>)
    requires forall i :: 0 <= i < |a| ==> a[i] == 0
    ensures SumInt(a) == 0
  {
    if |a| > 0 {
      ZeroSum(a[..|a| - 1]);
    }
  }

  lemma {:induction false} SumIntPointwise(a: seq<int>, b: seq<int>, c: seq<int>)
    requires |a| == |b| == |c|
    requires forall i :: 0 <= i < |a| ==> c[i] == a[i] + b[i]
    ensures SumInt(c) == SumInt(a) + SumInt(b)
  {
    var n := |a|;
    if n > 0 {
      SumIntPointwise(a[..n - 1], b[..n - 1], c[..n - 1]);
    }
  }

  /** `series.filter(v => v > 0).length`. */
  function PositiveCount(s: seq<int>): (k: nat)
    ensures k <= |s|
  {
    Count(s, (v: int) => v > 0)
  }

  /** Some category has fewer than MIN_POINTS non-zero months. */
  predicate HasSparseCategory(m: seq<seq<int>>)
  {
    exists c :: 0 <= c < |m| && PositiveCount(m[c]) < MinPoints
  }

  /** `useTotalsOnly`. */
  predicate UseTotalsOnly(m: seq<seq<int>>, months: nat)
  {
    HasSparseCategory(m) || months < MinPoints
  }

  /** On the service path every category has at least MIN_POINTS positive
      months, so (with non-negative cells) at least MIN_POINTS months have a
      positive aligned total and the historical mean is positive. */
  lemma ModelPathHasHistory(m: seq<seq<int>>, n: nat)
    requires |m| > 0 && forall c :: 0 <= c < |m| ==> |m[c]| == n
    requires forall c, i :: 0 <= c < |m| && 0 <= i < n ==> m[c][i] >= 0
    requires !UseTotalsOnly(m, n)
    ensures PositiveCount(AlignedTotal(m, n)) >= MinPoints
    ensures HistoricalMean(AlignedTotal(m, n)) > 0.0
  {
    var a := AlignedTotal(m, n);
    assert PositiveCount(m[0]) >= MinPoints;
    forall i | 0 <= i < n && m[0][i] > 0
      ensures a[i] > 0
    {
      ColumnAtLeast(Column(m, i), 0);
    }
    CountMonotone(m[0], a);
    PositiveMeanPositive(a);
  }

  lemma {:induction false} ColumnAtLeast(col: seq<int>, c: int)
    requires 0 <= c < |col|
    requires forall k :: 0 <= k < |col| ==> col[k] >= 0
    ensures SumInt(col) >= col[c]
  {
    var n := |col|;
    SumIntNonNegative(col[..n - 1]);
    if c < n - 1 {
      ColumnAtLeast(col[..n - 1], c);
    }
  }

  lemma {:induction false} CountMonotone(a: seq<int>, b: seq<int>)
    requires |a| == |b|
    requires forall i :: 0 <= i < |a| && a[i] > 0 ==> b[i] > 0
    ensures PositiveCount(a) <= PositiveCount(b)
  {
    if |a| > 0 {
      CountMonotone(a[1..], b[1..]);
    }
  }

  function Positives(xs: seq<int>): (p: seq<int>)
    ensures forall i :: 0 <= i < |p| ==> p[i] > 0
  {
    Filter(xs, (v: int) => v > 0)
  }

  /** `nz.length ? nz.reduce((a, b) => a + b, 0) / nz.length : 0` with
      `nz = xs.filter(v => v > 0)`. */
  function PositiveMean(xs: seq<int>): (r: real)
  {
    var nz := Positives(xs);
    if |nz| > 0 then SumInt(nz) as real / |nz| as real else 0.0
  }

  /** The mean of the positive values is 0 when there are none and at least
      1 otherwise, and it is at most the largest value. */
  lemma PositiveMeanBounds(xs: seq<int>, hi: int)
    requires forall i :: 0 <= i < |xs| ==> xs[i] <= hi
    ensures PositiveMean(xs) >= 0.0
    ensures (exists i :: 0 <= i < |xs| && xs[i] > 0) ==> 1.0 <= PositiveMean(xs) <= hi as real
    ensures (forall i :: 0 <= i < |xs| ==> xs[i] <= 0) ==> PositiveMean(xs) == 0.0
  {
    var nz := Positives(xs);
    if |nz| > 0 {
      forall i | 0 <= i < |nz|
        ensures 1 <= nz[i] <= hi
      {
        assert nz[i] in xs;
        var q :| 0 <= q < |xs| && xs[q] == nz[i];
      }
      IntBounds(nz, 1, hi);
      MeanBetween(SumInt(nz), |nz|, 1, hi);
    } else {
      PositivesNonEmpty(xs);
    }
  }

  lemma PositivesNonEmpty(xs: seq<int>)
    ensures |Positives(xs)| > 0 <==> exists i :: 0 <= i < |xs| && xs[i] > 0
  {
    if exists i :: 0 <= i < |xs| && xs[i] > 0 {
      var i :| 0 <= i < |xs| && xs[i] > 0;
      assert xs[i] in Positives(xs);
    }
  }

  lemma MeanBetween(total: int, n: int, lo: int, hi: int)
    requires n > 0 && n * lo <= total <= n * hi
    ensures lo as real <= total as real / n as real <= hi as real
  {
    var t, k := total as real, n as real;
    assert k * lo as real <= t <= k * hi as real;
    assert t / k * k == t;
  }

  lemma PositiveMeanPositive(xs: seq<int>)
    requires PositiveCount(xs) > 0
    ensures PositiveMean(xs) > 0.0
  {
    CountIsFilterLength(xs, (v: int) => v > 0);
    var nz := Positives(xs);
    IntBounds(nz, 1, 1);
  }

  lemma {:induction false} IntBounds(xs: seq<int>, lo: int, hi: int)
    requires forall i :: 0 <= i < |xs| ==> lo <= xs[i]
    ensures SumInt(xs) >= |xs| * lo
    ensures (forall i :: 0 <= i < |xs| ==> xs[i] <= hi) ==> SumInt(xs) <= |xs| * hi
  {
    if |xs| > 0 {
      IntBounds(xs[..|xs| - 1], lo, hi);
    }
  }

  /** `historicalTotalMean`: the sum of the positive aligned totals over
      `Math.max(1, count)`. */
  function HistoricalMean(aligned: seq<int>): (r: real)
  {
    var nz := Positives(aligned);
    SumInt(nz) as real / (if |nz| > 1 then |nz| else 1) as real
  }

  /** `Math.round(meanTotal * Math.pow(1.015, i + 1))` for each step. */
  function GrowthForecast(mean: real, len: nat): (preds: seq<int>)
    ensures |preds| == len
    ensures forall i :: 0 <= i < len ==> preds[i] == GrowthStep(mean, i)
  {
    seq(len, i requires 0 <= i < len => GrowthStep(mean, i))
  }

  /** The forecast of step i (0-based): i + 1 months of 1.5 % growth. */
  function GrowthStep(mean: real, i: nat): int
  {
    Round(mean * Pow(MonthlyGrowth, i + 1))
  }

  /** Growth steps never decrease and never fall below the rounded mean. */
  lemma GrowthStepMonotone(mean: real, i: nat, j: nat)
    requires mean >= 0.0 && i <= j
    ensures Round(mean) <= GrowthStep(mean, i) <= GrowthStep(mean, j)
  {
    PowMonotone(MonthlyGrowth, i + 1, j + 1);
    var pi, pj := Pow(MonthlyGrowth, i + 1), Pow(MonthlyGrowth, j + 1);
    MulLeft(mean, 1.0, pi);
    assert mean <= mean * pi;
    MulLeft(mean, pi, pj);
    RoundMonotone(mean, mean * pi);
    RoundMonotone(mean * pi, mean * pj);
  }

  /** With a non-negative mean the growth forecast never falls below the
      rounded mean and never decreases from one step to the next. */
  lemma GrowthForecastNonDecreasing(mean: real, len: nat)
    requires mean >= 0.0
    ensures forall i :: 0 <= i < len ==> Round(mean) <= GrowthForecast(mean, len)[i]
    ensures forall i, j :: 0 <= i <= j < len ==> GrowthForecast(mean, len)[i] <= GrowthForecast(mean, len)[j]
  {
    var g := GrowthForecast(mean, len);
    forall i, j | 0 <= i <= j < len
      ensures g[i] <= g[j]
    {
      GrowthStepMonotone(mean, i, j);
    }
    forall i | 0 <= i < len
      ensures Round(mean) <= g[i]
    {
      GrowthStepMonotone(mean, i, i);
    }
  }

  /** `Number(req.body.horizonDates) || 1`. */
  function Horizon(body: JsValue, host: Host): (h: JsNum)
    ensures h != NaN && h != Finite(0.0)
    ensures NumTruthy(ToNumber(Get(body, "horizonDates"), host)) ==> h == ToNumber(Get(body, "horizonDates"), host)
  {
    OrOne(ToNumber(Get(body, "horizonDates"), host))
  }

  function OrOne(n: JsNum): (r: JsNum)
    ensures r != NaN && r != Finite(0.0)
    ensures NumTruthy(n) ==> r == n
    ensures !NumTruthy(n) ==> r == Finite(1.0)
  {
    if NumTruthy(n) then n else Finite(1.0)
  }

  /** Absent, null, false, 0 and NaN horizons all become 1. */
  lemma MissingHorizonIsOne(body: JsValue, host: Host)
    requires body.Obj? && !HasKey(body.entries, "horizonDates")
    ensures Horizon(body, host) == Finite(1.0)
  {
  }

  /** `Array.from({length: Math.max(1, horizon)})`: the length is the integer
      part of the maximum, NaN gives 0, and a length beyond 2^32 - 1 throws a
      RangeError, which the handler answers with 500. */
  function PredictionLength(h: JsNum): (r: Result<nat, HttpError>)
    ensures r.Err? ==> r.error == PredictionFailed
    ensures h != NaN && r.Ok? ==> r.value >= 1
    ensures h.Finite? && h.r <= 1.0 ==> r == Ok(1)
    ensures h == NegInf ==> r == Ok(1)
    ensures h == PosInf ==> r.Err?
    ensures h.Finite? && 1.0 <= h.r <= MaxArrayLength as real ==> r == Ok(Floor(h.r))
  {
    match h
    case NaN => Ok(0)
    case NegInf => Ok(1)
    case PosInf => Err(PredictionFailed)
    case Finite(x) =>
      var l := Floor(Max(1.0, x));
      if l > MaxArrayLength then Err(PredictionFailed) else Ok(l)
  }

  /** `stepBounds`, the last pair reused for later steps. */
  function StepBounds(i: nat): (b: (real, real))
    ensures 0.0 < b.0 < 1.0 < b.1
  {
    if i == 0 then (0.80, 1.25) else if i == 1 then (0.70, 1.35) else (0.60, 1.45)
  }

  /** One step of the totals clamp: a non-finite value falls back to
      `Math.round(targetMean || baseRef || 0)`; a finite one is clamped into
      [lo * baseRef, hi * baseRef]. */
  function ClampStep(v: JsNum, i: nat, baseRef: real, targetMean: real): (r: real)
    ensures v.Finite? && baseRef >= 0.0 ==> StepBounds(i).0 * baseRef <= r <= StepBounds(i).1 * baseRef
    ensures v.Finite? && StepBounds(i).0 * baseRef <= v.r <= StepBounds(i).1 * baseRef ==> r == v.r
    ensures !v.Finite? ==> r == r.Floor as real
    ensures !v.Finite? && targetMean != 0.0 ==> r == Round(targetMean) as real
    ensures !v.Finite? && targetMean == 0.0 ==> r == Round(baseRef) as real
  {
    var (l, h) := StepBounds(i);
    var lo, hi := l * baseRef, h * baseRef;
    assert baseRef >= 0.0 ==> lo <= hi by {
      if baseRef >= 0.0 {
        assert (h - l) * baseRef >= 0.0;
      }
    }
    if !v.Finite? then
      Round(if targetMean != 0.0 then targetMean else if baseRef != 0.0 then baseRef else 0.0) as real
    else
      Min(hi, Max(lo, v.r))
  }

  function ClampTotals(totals: seq<JsNum>, baseRef: real, targetMean: real): (r: seq<real>)
    ensures |r| == |totals| && forall i :: 0 <= i < |totals| ==> r[i] == ClampStep(totals[i], i, baseRef, targetMean)
  {
    seq(|totals|, i requires 0 <= i < |totals| => ClampStep(totals[i], i, baseRef, targetMean))
  }

  /** The last positive value, 0 when there is none. */
  function LastPositiveValue(xs: seq<int>): (r: int)
    ensures r >= 0
    ensures r == 0 <==> forall i :: 0 <= i < |xs| ==> xs[i] <= 0
    ensures r > 0 ==> exists i :: 0 <= i < |xs| && xs[i] == r && forall j :: i < j < |xs| ==> xs[j] <= 0
  {
    if |xs| == 0 then 0
    else if xs[|xs| - 1] > 0 then xs[|xs| - 1]
    else
      var r := LastPositiveValue(xs[..|xs| - 1]);
      assert r > 0 ==> exists i :: 0 <= i < |xs| - 1 && xs[i] == r && forall j :: i < j < |xs| ==> xs[j] <= 0 by {
        if r > 0 {
          var init := xs[..|xs| - 1];
          var i :| 0 <= i < |init| && init[i] == r && forall j :: i < j < |init| ==> init[j] <= 0;
          assert xs[i] == r && forall j :: i < j < |xs| ==> xs[j] <= 0;
        }
      }
      r
  }

  /** `lastNZ`: the loop that walks back from the end to the first positive
      total. */
  method LastPositive(xs: seq<int>) returns (r: int)
    ensures r == LastPositiveValue(xs)
  {
    var i := |xs| - 1;
    while i >= 0
      invariant -1 <= i < |xs|
      invariant LastPositiveValue(xs) == LastPositiveValue(xs[..i + 1])
    {
      assert xs[..i + 1][..i] == xs[..i];
      if xs[i] > 0 {
        return xs[i];
      }
      i := i - 1;
    }
    return 0;
  }

  /** `targetMean` (and meanTotal of the sparse path): the mean of the
      positive totals among the last six months. */
  function TargetMean(aligned: seq<int>): real
  {
    PositiveMean(SliceFromEnd(aligned, TotalRecentWindow))
  }

  /** `baseRef = lastNZ > 0 ? lastNZ : targetMean`. */
  function BaseRef(aligned: seq<int>): (b: real)
    ensures b >= 0.0
  {
    var last := LastPositiveValue(aligned);
    PositiveMeanBounds(SliceFromEnd(aligned, TotalRecentWindow), MaxOf(aligned));
    if last > 0 then last as real else TargetMean(aligned)
  }

  function MaxOf(xs: seq<int>): (m: int)
    ensures forall i :: 0 <= i < |xs| ==> xs[i] <= m
  {
    if |xs| == 0 then 0
    else
      var m := MaxOf(xs[..|xs| - 1]);
      if xs[|xs| - 1] > m then xs[|xs| - 1] else m
  }

  /** `catAverages`: per category, the mean of the positive values among its
      last three months. */
  function CategoryAverages(m: seq<seq<int>>): (avgs: seq<real>)
    ensures |avgs| == |m|
    ensures forall c :: 0 <= c < |m| ==> avgs[c] == RecentAverage(m[c]) && avgs[c] >= 0.0
  {
    seq(|m|, c requires 0 <= c < |m| => RecentAverage(m[c]))
  }

  function RecentAverage(series: seq<int>): (a: real)
    ensures a >= 0.0
    ensures a == PositiveMean(SliceFromEnd(series, RecentWindow))
  {
    PositiveMeanBounds(SliceFromEnd(series, RecentWindow), MaxOf(SliceFromEnd(series, RecentWindow)));
    PositiveMean(SliceFromEnd(series, RecentWindow))
  }

  /** input_summary: per category the number of positive months and their
      rounded mean (0 when there are none). */
  function InputSummary(cats: seq<string>, m: seq<seq<int>>): (s: seq<Summary>)
    requires |m| == |cats|
    ensures |s| == |cats|
    ensures forall c :: 0 <= c < |cats| ==> s[c].category == cats[c] && s[c].months == PositiveCount(m[c])
    ensures forall c :: 0 <= c < |cats| ==> (s[c].months == 0 <==> s[c].average == 0)
    ensures forall c :: 0 <= c < |cats| && s[c].months > 0 ==> s[c].average == Round(PositiveMean(m[c]))
  {
    seq(|cats|, c requires 0 <= c < |cats| => SummaryOf(cats[c], m[c]))
  }

  function SummaryOf(cat: string, series: seq<int>): (s: Summary)
    ensures s.category == cat && s.months == PositiveCount(series)
    ensures s.months == 0 <==> s.average == 0
    ensures s.months > 0 ==> s.average == Round(PositiveMean(series))
  {
    var months := PositiveCount(series);
    CountIsFilterLength(series, (v: int) => v > 0);
    if months > 0 then
      PositiveMeanBounds(series, MaxOf(series));
      PositiveMeanPositive(series);
      assert PositiveMean(series) >= 1.0;
      Summary(cat, months, Round(PositiveMean(series)))
    else Summary(cat, 0, 0)
  }

  function ToReals(xs: seq<int>): (r: seq<real>)
    ensures |r| == |xs| && forall i :: 0 <= i < |xs| ==> r[i] == xs[i] as real
  {
    seq(|xs|, i requires 0 <= i < |xs| => xs[i] as real)
  }

  /** prediction_by_category: the category names with their series. */
  function TableToJs(cats: seq<string>, table: seq<seq<int>>): (r: seq<(string, seq<JsNum>)>)
    requires |cats| == |table|
    ensures |r| == |cats| && forall c :: 0 <= c < |cats| ==> r[c] == (cats[c], Ints(table[c]))
  {
    seq(|cats|, c requires 0 <= c < |cats| => (cats[c], Ints(table[c])))
  }

  /** A finite integer value. */
  predicate IsIntegral(n: JsNum) { n.Finite? && n.r == n.r.Floor as real }

  /** The categories' values at step i, as integers. */
  function StepValues(byCat: seq<(string, seq<JsNum>)>, i: nat): (v: seq<int>)
    requires forall c :: 0 <= c < |byCat| ==> i < |byCat[c].1|
    ensures |v| == |byCat|
  {
    seq(|byCat|, c requires 0 <= c < |byCat| => if byCat[c].1[i].Finite? then byCat[c].1[i].r.Floor else 0)
  }

  /** Every category series has one integer per forecast step and at every
      step the categories add up to the total. */
  predicate StepSumsMatch(byCat: seq<(string, seq<JsNum>)>, total: seq<JsNum>)
  {
    (forall c :: 0 <= c < |byCat| ==> |byCat[c].1| == |total|)
    && (forall c, i :: 0 <= c < |byCat| && 0 <= i < |total| ==> IsIntegral(byCat[c].1[i]))
    && (forall i :: 0 <= i < |total| ==> IsIntegral(total[i]) && SumInt(StepValues(byCat, i)) as real == total[i].r)
  }

  lemma TableSums(cats: seq<string>, table: seq<seq<int>>, totals: seq<int>)
    requires |cats| == |table|
    requires forall c :: 0 <= c < |table| ==> |table[c]| == |totals|
    requires forall i :: 0 <= i < |totals| ==> SumInt(Column(table, i)) == totals[i]
    ensures StepSumsMatch(TableToJs(cats, table), Ints(totals))
  {
    var byCat := TableToJs(cats, table);
    forall i | 0 <= i < |totals|
      ensures SumInt(StepValues(byCat, i)) == totals[i]
    {
      assert StepValues(byCat, i) == Column(table, i);
    }
  }

  /** Every category series has one entry per step, and at every step the
      categories hold the largest-remainder split of that step's total by
      the proportions p. */
  predicate SplitsBy(byCat: seq<(string, seq<JsNum>)>, totals: seq<real>, p: seq<real>)
  {
    (forall c :: 0 <= c < |byCat| ==> |byCat[c].1| == |totals|)
    && forall i :: 0 <= i < |totals| ==> IsLargestRemainder(totals[i], p, StepValues(byCat, i))
  }

  lemma TableSplits(cats: seq<string>, table: seq<seq<int>>, totals: seq<real>, p: seq<real>)
    requires |cats| == |table|
    requires forall c :: 0 <= c < |table| ==> |table[c]| == |totals|
    requires forall i :: 0 <= i < |totals| ==> IsLargestRemainder(totals[i], p, Column(table, i))
    ensures SplitsBy(TableToJs(cats, table), totals, p)
  {
    var byCat := TableToJs(cats, table);
    forall i | 0 <= i < |totals|
      ensures IsLargestRemainder(totals[i], p, StepValues(byCat, i))
    {
      assert StepValues(byCat, i) == Column(table, i);
    }
  }

  /** Apportions every step's total across the categories by their recent
      proportions. */
  method Apportion(m: seq<seq<int>>, totals: seq<real>) returns (table: seq<seq<int>>)
    requires |m| > 0
    ensures |table| == |m| && forall c :: 0 <= c < |m| ==> |table[c]| == |totals|
    ensures forall i :: 0 <= i < |totals| ==> IsLargestRemainder(totals[i], Proportions(CategoryAverages(m)), Column(table, i))
    ensures forall i :: 0 <= i < |totals| ==> SumInt(Column(table, i)) == Round(totals[i])
  {
    var p := Proportions(CategoryAverages(m));
    ProportionsSumToOne(CategoryAverages(m));
    table := Distribute(totals, p);
    forall i | 0 <= i < |totals|
      ensures SumInt(Column(table, i)) == Round(totals[i])
    {
      AllocationSum(totals[i], p, Column(table, i));
    }
  }

  /** The totals-only post-processing: clamp the forecast totals around the
      recent totals, apportion every clamped step, and report the rounded
      clamped totals. */
  method TotalsOnly(m: seq<seq<int>>, aligned: seq<int>, totalPred0: seq<JsNum>) returns (table: seq<seq<int>>, total: seq<int>)
    requires |m| > 0
    ensures |total| == |totalPred0|
    ensures |table| == |m| && forall c :: 0 <= c < |m| ==> |table[c]| == |totalPred0|
    ensures forall i :: 0 <= i < |totalPred0| ==>
      total[i] == Round(ClampStep(totalPred0[i], i, BaseRef(aligned), TargetMean(aligned)))
    ensures forall i :: 0 <= i < |totalPred0| ==> SumInt(Column(table, i)) == total[i]
    ensures forall i :: 0 <= i < |totalPred0| ==>
      IsLargestRemainder(ClampStep(totalPred0[i], i, BaseRef(aligned), TargetMean(aligned)), Proportions(CategoryAverages(m)), Column(table, i))
  {
    var targetMean := TargetMean(aligned);
    var lastNZ := LastPositive(aligned);
    var baseRef := if lastNZ > 0 then lastNZ as real else targetMean;
    assert baseRef == BaseRef(aligned);
    var totalPred := ClampTotals(totalPred0, baseRef, targetMean);
    table := Apportion(m, totalPred);
    total := seq(|totalPred|, i requires 0 <= i < |totalPred| => Round(totalPred[i]));
  }

  /** `result.predictionMethod || 'unknown'`. */
  function MethodName(m: Option<string>): (name: string)
    ensures name != ""
  {
    if m.Some? && m.value != "" then m.value else "unknown"
  }

  /** The plausibility check of the service's totals: the ratio of their mean
      to the historical mean is not finite, above 5 or below 0.2. */
  predicate Unrealistic(total: seq<JsNum>, histMean: real)
  {
    |total| > 0 &&
    var ratio := JsDivide(JsDivide(JsSum(total), |total| as real), histMean);
    !ratio.Finite? || ratio.r > 5.0 || ratio.r < 0.2
  }

  /** Without any positive history every non-empty answer of the service is
      unrealistic. */
  lemma NoHistoryIsUnrealistic(total: seq<JsNum>)
    requires |total| > 0
    ensures Unrealistic(total, 0.0)
  {
  }

  /** Finite totals whose mean lies within [0.2, 5] times a positive
      historical mean are kept. */
  lemma PlausibleTotalsKept(total: seq<JsNum>, histMean: real)
    requires |total| > 0 && histMean > 0.0
    requires forall i :: 0 <= i < |total| ==> total[i].Finite?
    requires 0.2 * histMean <= Sum(Reals(total)) / |total| as real <= 5.0 * histMean
    ensures !Unrealistic(total, histMean)
  {
    JsSumFinite(total);
    var q := Sum(Reals(total)) / |total| as real;
    assert q / histMean <= 5.0 by {
      assert q <= 5.0 * histMean;
    }
    assert q / histMean >= 0.2 by {
      assert q >= 0.2 * histMean;
    }
  }

  /** The matrix, aligned totals and path decision of a set of rows. */
  function RowsMatrix(rows: seq<Row>): (m: seq<seq<int>>)
    ensures |m| == |UniqueCategories(rows)| && forall c :: 0 <= c < |m| ==> |m[c]| == |UniqueMonths(rows)|
  {
    Matrix(rows, UniqueCategories(rows), UniqueMonths(rows))
  }

  function RowsAligned(rows: seq<Row>): seq<int>
  {
    AlignedTotal(RowsMatrix(rows), |UniqueMonths(rows)|)
  }

  predicate TotalsOnlyRows(rows: seq<Row>)
  {
    UseTotalsOnly(RowsMatrix(rows), |UniqueMonths(rows)|)
  }

  /** The service path is taken: a body, some rows, and no sparse data. */
  predicate ServicePath(body: JsValue, rows: seq<Row>)
  {
    !Nullish(body) && |rows| > 0 && !TotalsOnlyRows(rows)
  }

  /** A forecast: the series per category and the total series. */
  datatype Forecast = Forecast(byCategory: seq<(string, seq<JsNum>)>, total: seq<JsNum>)

  /** The sparse-data path: a growth forecast from the recent positive
      totals, clamped per step and apportioned onto the categories. */
  method SparseForecast(cats: seq<string>, m: seq<seq<int>>, aligned: seq<int>, horizon: JsNum) returns (r: Result<Forecast, HttpError>)
    requires |m| == |cats| > 0
    ensures r.Err? <==> PredictionLength(horizon).Err?
    ensures r.Err? ==> r.error == PredictionFailed
    ensures r.Ok? ==> |r.value.total| == PredictionLength(horizon).value && StepSumsMatch(r.value.byCategory, r.value.total)
    ensures r.Ok? ==> forall i :: 0 <= i < |r.value.total| ==>
      r.value.total[i] == Finite(Round(SparseSteps(aligned, |r.value.total|)[i]) as real)
    ensures r.Ok? ==> SplitsBy(r.value.byCategory, SparseSteps(aligned, |r.value.total|), Proportions(CategoryAverages(m)))
  {
    var len := PredictionLength(horizon);
    if len.Err? {
      return Err(len.error);
    }
    var preds := GrowthForecast(TargetMean(aligned), len.value);
    var table, total := TotalsOnly(m, aligned, Ints(preds));
    TableSums(cats, table, total);
    TableSplits(cats, table, SparseSteps(aligned, len.value), Proportions(CategoryAverages(m)));
    return Ok(Forecast(TableToJs(cats, table), Ints(total)));
  }

  /** The clamped step totals of the sparse-data path: the growth forecast
      of the recent positive mean, each step clamped around the reference. */
  function SparseSteps(aligned: seq<int>, len: nat): (steps: seq<real>)
    ensures |steps| == len
    ensures forall i :: 0 <= i < len ==>
      steps[i] == ClampStep(Finite(GrowthStep(TargetMean(aligned), i) as real), i, BaseRef(aligned), TargetMean(aligned))
  {
    seq(len, i requires 0 <= i < len => ClampStep(Finite(GrowthStep(TargetMean(aligned), i) as real), i, BaseRef(aligned), TargetMean(aligned)))
  }

  /** The fallback for an implausible service answer: a growth forecast from
      the historical mean, apportioned onto the categories. */
  method UnrealisticFallback(cats: seq<string>, m: seq<seq<int>>, aligned: seq<int>, horizon: JsNum) returns (r: Result<Forecast, HttpError>)
    requires |m| == |cats| > 0
    ensures r.Err? <==> PredictionLength(horizon).Err?
    ensures r.Err? ==> r.error == PredictionFailed
    ensures r.Ok? ==> |r.value.total| == PredictionLength(horizon).value && StepSumsMatch(r.value.byCategory, r.value.total)
    ensures r.Ok? ==> r.value.total == Ints(GrowthForecast(HistoricalMean(aligned), |r.value.total|))
    ensures r.Ok? ==> SplitsBy(r.value.byCategory, ToReals(GrowthForecast(HistoricalMean(aligned), |r.value.total|)), Proportions(CategoryAverages(m)))
  {
    var len := PredictionLength(horizon);
    if len.Err? {
      return Err(len.error);
    }
    var preds := GrowthForecast(HistoricalMean(aligned), len.value);
    var table := Apportion(m, ToReals(preds));
    forall i | 0 <= i < |preds|
      ensures SumInt(Column(table, i)) == preds[i]
    {
      RoundOfInt(preds[i]);
    }
    TableSums(cats, table, preds);
    TableSplits(cats, table, ToReals(preds), Proportions(CategoryAverages(m)));
    return Ok(Forecast(TableToJs(cats, table), Ints(preds)));
  }

  /** The whole handler. `body` is the request body, `rows` the aggregation
      result, `service` the outcome of the forecasting call (consulted only
      on the service path). */
  method Predict(body: JsValue, rows: seq<Row>, service: ServiceOutcome, host: Host) returns (r: Result<Response, HttpError>)
    ensures Nullish(body) ==> r == Err(PredictionFailed)
    ensures !Nullish(body) && |rows| == 0 ==> r == Err(NotEnoughData)
    ensures r.Ok? ==> |rows| > 0 && r.value.inputSummary == InputSummary(UniqueCategories(rows), RowsMatrix(rows))
    ensures !Nullish(body) && |rows| > 0 && TotalsOnlyRows(rows) ==>
      (r.Ok? <==> PredictionLength(Horizon(body, host)).Ok?)
    ensures r.Ok? && TotalsOnlyRows(rows) ==>
      r.value.predictionMethod == "statistical_sparse_data"
      && PredictionLength(Horizon(body, host)) == Ok(|r.value.totalPrediction|)
      && StepSumsMatch(r.value.predictionByCategory, r.value.totalPrediction)
    ensures r.Ok? && TotalsOnlyRows(rows) ==>
      (forall i :: 0 <= i < |r.value.totalPrediction| ==>
         r.value.totalPrediction[i] == Finite(Round(SparseSteps(RowsAligned(rows), |r.value.totalPrediction|)[i]) as real))
      && SplitsBy(r.value.predictionByCategory, SparseSteps(RowsAligned(rows), |r.value.totalPrediction|),
                  Proportions(CategoryAverages(RowsMatrix(rows))))
    ensures ServicePath(body, rows) && service.Threw? ==>
      r == Err(if service.thrown.ApiThrow? then service.thrown.err else PredictionFailed)
    ensures ServicePath(body, rows) && service == Returned(None) ==> r == Err(InvalidData)
    ensures ServicePath(body, rows) && service.Returned? && service.result.Some? ==>
      var res := service.result.value;
      (res.categories.None? ==> r == Err(InvalidData))
      && (res.categories.Some? && res.total.None? ==> r == Err(InvalidData))
      && (res.categories.Some? && res.total.Some? && Unrealistic(res.total.value, HistoricalMean(RowsAligned(rows))) ==>
            (r.Ok? <==> PredictionLength(Horizon(body, host)).Ok?)
            && (r.Ok? ==>
                  (r.value.predictionMethod == "statistical_ml_unrealistic"
                   && PredictionLength(Horizon(body, host)) == Ok(|r.value.totalPrediction|)
                   && StepSumsMatch(r.value.predictionByCategory, r.value.totalPrediction)
                   && r.value.totalPrediction == Ints(GrowthForecast(HistoricalMean(RowsAligned(rows)), |r.value.totalPrediction|))
                   && SplitsBy(r.value.predictionByCategory,
                               ToReals(GrowthForecast(HistoricalMean(RowsAligned(rows)), |r.value.totalPrediction|)),
                               Proportions(CategoryAverages(RowsMatrix(rows)))))))
      && (res.categories.Some? && res.total.Some? && !Unrealistic(res.total.value, HistoricalMean(RowsAligned(rows))) ==>
            r.Ok? && r.value.predictionByCategory == res.categories.value
            && r.value.totalPrediction == res.total.value
            && r.value.predictionMethod == MethodName(res.predictionMethod))
  {
    if Nullish(body) {
      return Err(PredictionFailed);
    }
    var horizon := Horizon(body, host);
    if |rows| == 0 {
      return Err(NotEnoughData);
    }
    var months := UniqueMonths(rows);
    var cats := UniqueCategories(rows);
    forall k | 0 <= k < |rows|
      ensures CategoryName(rows[k].category) in cats
    {
      assert RowCategories(rows)[k] == CategoryName(rows[k].category);
    }
    var m := BuildMatrix(rows, cats, months);
    var aligned := AlignedTotal(m, |months|);
    var summary := InputSummary(cats, m);
    if UseTotalsOnly(m, |months|) {
      var f := SparseForecast(cats, m, aligned, horizon);
      if f.Err? {
        return Err(f.error);
      }
      return Ok(Response(summary, f.value.byCategory, f.value.total, "statistical_sparse_data"));
    }
    match service {
      case Threw(thrown) =>
        return Err(if thrown.ApiThrow? then thrown.err else PredictionFailed);
      case Returned(None) =>
        return Err(InvalidData);
      case Returned(Some(res)) =>
        if res.categories.None? {
          return Err(InvalidData);
        }
        if res.total.Some? && Unrealistic(res.total.value, HistoricalMean(aligned)) {
          var f := UnrealisticFallback(cats, m, aligned, horizon);
          if f.Err? {
            return Err(f.error);
          }
          return Ok(Response(summary, f.value.byCategory, f.value.total, "statistical_ml_unrealistic"));
        }
        if res.total.None? {
          return Err(InvalidData);
        }
        return Ok(Response(summary, res.categories.value, res.total.value, MethodName(res.predictionMethod)));
    }
  }
}
