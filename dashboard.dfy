/** The dashboard's figures (frontend/src/pages/dashboard.jsx): this and
    last month's totals, the overall total, this month's breakdown by
    category, the six-month trend, the daily average, the six most recent
    expenses, the month-on-month percentage change and the top six
    categories. */
module Dashboard {
  import opened Numeric
  import opened Sequences
  import opened Outcomes
  import opened Calendar
  import opened JsValues
  import opened Grouping
  import opened LocalTime

  /** `Number(e.amount) || 0`. */
  function Amount(e: JsValue, host: Host): (a: JsNum)
    ensures a != NaN
  {
    OrZero(ToNumber(Get(e, "amount"), host))
  }

  function Amounts(items: seq<JsValue>, host: Host): (xs: seq<JsNum>)
    ensures |xs| == |items| && forall i :: 0 <= i < |items| ==> xs[i] == Amount(items[i], host)
  {
    seq(|items|, i requires 0 <= i < |items| => Amount(items[i], host))
  }

  /** `items.reduce((sum, e) => sum + (Number(e.amount) || 0), 0)`; with
      finite amounts, their exact sum. */
  function TotalOf(items: seq<JsValue>, host: Host): (t: JsNum)
    ensures (forall i :: 0 <= i < |items| ==> Amount(items[i], host).Finite?) ==>
      t == Finite(Sum(Reals(Amounts(items, host))))
  {
    var xs := Amounts(items, host);
    if forall i :: 0 <= i < |items| ==> Amount(items[i], host).Finite? then
      JsSumFinite(xs);
      JsSum(xs)
    else JsSum(xs)
  }

  /** `new Date(e.date)` falls in month m of year y. */
  predicate InMonth(e: JsValue, y: int, m: int, clock: Clock)
  {
    var d := clock.toDate(Get(e, "date"));
    d.Some? && d.value.date.year == y && d.value.date.month == m
  }

  function InMonthFilter(y: int, m: int, clock: Clock): JsValue -> bool
  {
    e => InMonth(e, y, m, clock)
  }

  /** The expenses of one month, in their order. */
  function MonthExpenses(expenses: seq<JsValue>, y: int, m: int, clock: Clock): (r: seq<JsValue>)
    ensures IsSubsequence(r, expenses)
    ensures forall e :: e in r <==> e in expenses && InMonth(e, y, m, clock)
    ensures forall e :: multiset(r)[e] == if InMonth(e, y, m, clock) then multiset(expenses)[e] else 0
  {
    FilterMultiplicity(expenses, InMonthFilter(y, m, clock));
    Filter(expenses, InMonthFilter(y, m, clock))
  }

  function MonthTotal(expenses: seq<JsValue>, y: int, m: int, clock: Clock, host: Host): JsNum
  {
    TotalOf(MonthExpenses(expenses, y, m, clock), host)
  }

  /** `categoryMap[e.category] = (categoryMap[e.category] || 0) + amount`:
      the entries keyed by the category's property-key string. */
  function CategoryEntries(items: seq<JsValue>, host: Host): (es: seq<(string, JsNum)>)
    ensures |es| == |items|
    ensures forall i :: 0 <= i < |items| ==> es[i] == (ToStr(Get(items[i], "category"), host), Amount(items[i], host))
  {
    seq(|items|, i requires 0 <= i < |items| => (ToStr(Get(items[i], "category"), host), Amount(items[i], host)))
  }

  /** With finite amounts, this month's category sums add up to this
      month's total. */
  lemma BreakdownSumsToTotal(items: seq<JsValue>, host: Host)
    requires forall i :: 0 <= i < |items| ==> Amount(items[i], host).Finite?
    ensures var g := Fold(CategoryEntries(items, host));
      (forall k :: k in g.keys ==> k in g.sums && g.sums[k].Finite?)
      && TotalOf(items, host) == Finite(SumOver(g.keys, g.sums))
  {
    var es := CategoryEntries(items, host);
    FoldTotal(es);
    assert AllAmounts(es) == Reals(Amounts(items, host));
  }

  /** One point of the six-month trend: the month (0-11, shown by its short
      name) and its total. */
  datatype TrendPoint = TrendPoint(year: int, month: int, amount: JsNum)

  /** The month totals the trend reads, by year and month. */
  function MonthTotals(expenses: seq<JsValue>, clock: Clock, host: Host): (int, int) -> JsNum
  {
    (y, m) => MonthTotal(expenses, y, m, clock, host)
  }

  /** Entry k of the trend is the month k - 5 months from month `month` of
      year `year` (counting months as 12 * year + month), with that month's
      total. */
  predicate TrendEntry(p: TrendPoint, k: int, year: int, month: int, totals: (int, int) -> JsNum)
  {
    0 <= p.month < 12 && 12 * p.year + p.month == 12 * year + month - 5 + k
    && p.amount == totals(p.year, p.month)
  }

  /** The `last6Months` loop: the months from five back up to the current
      one, oldest first, each with its total. */
  method Last6Months(totals: (int, int) -> JsNum, year: int, month: int) returns (trend: seq<TrendPoint>)
    requires 0 <= month < 12
    ensures |trend| == 6
    ensures forall k :: 0 <= k < 6 ==> TrendEntry(trend[k], k, year, month, totals)
    ensures trend[5].year == year && trend[5].month == month
    ensures forall k :: 0 < k < 6 ==>
      12 * trend[k].year + trend[k].month == 12 * trend[k - 1].year + trend[k - 1].month + 1
  {
    trend := [];
    var i := 5;
    while i >= 0
      invariant -1 <= i <= 5 && |trend| == 5 - i
      invariant forall k :: 0 <= k < |trend| ==> TrendEntry(trend[k], k, year, month, totals)
    {
      var ym := MonthShift(year, month - i);
      trend := trend + [TrendPoint(ym.0, ym.1, totals(ym.0, ym.1))];
      i := i - 1;
    }
    TrendSteps(trend, year, month, totals);
  }

  lemma TrendSteps(trend: seq<TrendPoint>, year: int, month: int, totals: (int, int) -> JsNum)
    requires 0 <= month < 12
    requires |trend| == 6 && forall k :: 0 <= k < 6 ==> TrendEntry(trend[k], k, year, month, totals)
    ensures trend[5].year == year && trend[5].month == month
    ensures forall k :: 0 < k < 6 ==>
      12 * trend[k].year + trend[k].month == 12 * trend[k - 1].year + trend[k - 1].month + 1
  {
    assert TrendEntry(trend[5], 5, year, month, totals);
  }

  /** The comparator `new Date(b.date) - new Date(a.date)` is negative: `a`
      is strictly newer (both dates valid). */
  predicate Newer(clock: Clock, a: JsValue, b: JsValue)
  {
    var da, db := clock.toDate(Get(a, "date")), clock.toDate(Get(b, "date"));
    da.Some? && db.Some? && db.value.time < da.value.time
  }

  function NewerFirst(clock: Clock): (JsValue, JsValue) -> bool
  {
    (a, b) => Newer(clock, a, b)
  }

  lemma NewerStrict(clock: Clock)
    ensures StrictOrder(NewerFirst(clock))
  {
  }

  /** recentExpenses: six expenses (or all, when fewer), newest first, and
      no expense left out is newer than one shown. */
  function RecentExpenses(expenses: seq<JsValue>, clock: Clock): (r: seq<JsValue>)
    ensures |r| == if |expenses| < 6 then |expenses| else 6
    ensures multiset(r) <= multiset(expenses)
    ensures Sorted(r, NewerFirst(clock))
    ensures forall i, x :: 0 <= i < |r| && multiset(r)[x] < multiset(expenses)[x] ==> !Newer(clock, x, r[i])
  {
    NewerStrict(clock);
    TopN(expenses, NewerFirst(clock), 6)
  }

  /** The dashboard state. */
  datatype Stats = Stats(
    thisMonth: JsNum, lastMonth: JsNum, total: JsNum, recentExpenses: seq<JsValue>,
    categoryBreakdown: Groups, last6Months: seq<TrendPoint>, dailyAverage: JsNum, transactionCount: nat)

  /** fetchDashboardData after the expenses arrived. */
  method DashboardStats(expenses: seq<JsValue>, clock: Clock, host: Host) returns (stats: Stats)
    ensures var now := clock.now.date;
      var prev := PrevMonth(now.year, now.month);
      var current := MonthExpenses(expenses, now.year, now.month, clock);
      stats.thisMonth == TotalOf(current, host)
      && stats.lastMonth == MonthTotal(expenses, prev.0, prev.1, clock, host)
      && stats.total == TotalOf(expenses, host)
      && stats.recentExpenses == RecentExpenses(expenses, clock)
      && stats.categoryBreakdown == Fold(CategoryEntries(current, host))
      && stats.dailyAverage == JsDivide(stats.thisMonth, DaysInMonth(now.year, now.month) as real)
      && stats.transactionCount == |current|
    ensures |stats.last6Months| == 6
    ensures forall k :: 0 <= k < 6 ==> TrendEntry(stats.last6Months[k], k, clock.now.date.year, clock.now.date.month, MonthTotals(expenses, clock, host))
  {
    var now := clock.now.date;
    var (lastYear, lastMonth) := PrevMonth(now.year, now.month);
    var current := MonthExpenses(expenses, now.year, now.month, clock);
    var thisTotal := TotalOf(current, host);
    var categoryMap := Accumulate(CategoryEntries(current, host));
    var trend := Last6Months(MonthTotals(expenses, clock, host), now.year, now.month);
    var days := LastDayOfMonth(now.year, now.month);
    stats := Stats(thisTotal, MonthTotal(expenses, lastYear, lastMonth, clock, host), TotalOf(expenses, host),
      RecentExpenses(expenses, clock), categoryMap, trend, JsDivide(thisTotal, days as real), |current|);
  }

  /** `Math.abs`. */
  function JsAbs(n: JsNum): JsNum
  {
    match n
    case Finite(r) => Finite(if r < 0.0 then -r else r)
    case NegInf => PosInf
    case _ => n
  }

  /** a / b on numbers. */
  function JsDiv(a: JsNum, b: JsNum): JsNum
  {
    match b
    case Finite(r) => JsDivide(a, r)
    case NaN => NaN
    case _ => if a.Finite? then Finite(0.0) else NaN
  }

  function JsNegate(n: JsNum): JsNum
  {
    match n
    case Finite(r) => Finite(-r)
    case PosInf => NegInf
    case NegInf => PosInf
    case NaN => NaN
  }

  /** percentChange: 0 when last month's total is 0, otherwise the change
      relative to the size of last month's total, in percent. */
  function PercentChange(thisMonth: JsNum, lastMonth: JsNum): (p: JsNum)
    ensures lastMonth == Finite(0.0) ==> p == Finite(0.0)
    ensures thisMonth.Finite? && lastMonth.Finite? && lastMonth.r != 0.0 ==>
      p == Finite((thisMonth.r - lastMonth.r) / (if lastMonth.r < 0.0 then -lastMonth.r else lastMonth.r) * 100.0)
  {
    if lastMonth == Finite(0.0) then Finite(0.0)
    else JsScale(JsDiv(JsAdd(thisMonth, JsNegate(lastMonth)), JsAbs(lastMonth)), 100.0)
  }

  /** `isIncrease`: for finite totals, the change is non-negative exactly
      when this month's total is at least last month's. */
  lemma IncreaseSign(thisMonth: real, lastMonth: real)
    ensures var p := PercentChange(Finite(thisMonth), Finite(lastMonth));
      p.Finite? && (p.r >= 0.0 <==> (lastMonth == 0.0 || thisMonth >= lastMonth))
  {
    if lastMonth != 0.0 {
      var d := if lastMonth < 0.0 then -lastMonth else lastMonth;
      var q := (thisMonth - lastMonth) / d;
      assert q >= 0.0 <==> thisMonth - lastMonth >= 0.0;
    }
  }

  /** `Object.entries(categoryMap)`: each key with its sum, in key order. */
  function EntriesOf(g: Groups): (es: seq<(string, JsNum)>)
    requires forall k :: k in g.keys ==> k in g.sums
    ensures |es| == |g.keys| && forall i :: 0 <= i < |g.keys| ==> es[i] == (g.keys[i], g.sums[g.keys[i]])
  {
    seq(|g.keys|, i requires 0 <= i < |g.keys| => (g.keys[i], g.sums[g.keys[i]]))
  }

  /** The comparator `b - a` on the sums is negative: `a`'s sum is larger. */
  predicate Larger(a: (string, JsNum), b: (string, JsNum))
  {
    NumLess(b.1, a.1)
  }

  function LargerFirst(): ((string, JsNum), (string, JsNum)) -> bool
  {
    (a, b) => Larger(a, b)
  }

  lemma LargerStrict()
    ensures StrictOrder(LargerFirst())
  {
    forall a: (string, JsNum), b: (string, JsNum), c: (string, JsNum)
      ensures !Larger(a, a) && (Larger(a, b) && Larger(b, c) ==> Larger(a, c))
    {
      NumLessStrict(c.1, b.1, a.1);
    }
  }

  /** topCategories: at most six categories with their sums, largest first,
      and no category left out has a larger sum than one shown. */
  function TopCategories(g: Groups): (top: seq<(string, JsNum)>)
    requires WellFormed(g)
    ensures |top| == if |g.keys| < 6 then |g.keys| else 6
    ensures forall i :: 0 <= i < |top| ==> top[i].0 in g.keys && top[i].1 == g.sums[top[i].0]
    ensures forall i, j :: 0 <= i < j < |top| ==> !NumLess(top[i].1, top[j].1)
    ensures forall i, k :: 0 <= i < |top| && k in g.keys && (forall j :: 0 <= j < |top| ==> top[j].0 != k) ==>
      !NumLess(top[i].1, g.sums[k])
  {
    var es := EntriesOf(g);
    LargerStrict();
    var top := TopN(es, LargerFirst(), 6);
    TopCategoriesFacts(g, es, top);
    top
  }

  lemma TopCategoriesFacts(g: Groups, es: seq<(string, JsNum)>, top: seq<(string, JsNum)>)
    requires forall k :: k in g.keys ==> k in g.sums
    requires |es| == |g.keys| && forall i :: 0 <= i < |g.keys| ==> es[i] == (g.keys[i], g.sums[g.keys[i]])
    requires multiset(top) <= multiset(es)
    requires forall i, x :: 0 <= i < |top| && multiset(top)[x] < multiset(es)[x] ==> !Larger(x, top[i])
    ensures forall i :: 0 <= i < |top| ==> top[i].0 in g.keys && top[i].1 == g.sums[top[i].0]
    ensures forall i, k :: 0 <= i < |top| && k in g.keys && (forall j :: 0 <= j < |top| ==> top[j].0 != k) ==>
      !NumLess(top[i].1, g.sums[k])
  {
    forall i | 0 <= i < |top|
      ensures top[i].0 in g.keys && top[i].1 == g.sums[top[i].0]
    {
      assert top[i] in multiset(top);
      assert top[i] in multiset(es);
      var p :| 0 <= p < |es| && es[p] == top[i];
    }
    forall i, k | 0 <= i < |top| && k in g.keys && (forall j :: 0 <= j < |top| ==> top[j].0 != k)
      ensures !NumLess(top[i].1, g.sums[k])
    {
      var x := (k, g.sums[k]);
      var p :| 0 <= p < |g.keys| && g.keys[p] == k;
      assert es[p] == x;
      assert x !in multiset(top);
      assert multiset(top)[x] < multiset(es)[x];
      assert !Larger(x, top[i]);
    }
  }
}
