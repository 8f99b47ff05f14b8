/** The reconciling forecast service (backend/src/mlServices/
    mlService_complex_backup.js): sanitises the per-category history, falls
    back to a clamped statistical forecast when the model service is not
    configured, errs or cannot be reached, and otherwise rescales the
    model's per-category predictions towards the history and applies an
    overall budget backstop.

    The clock's month, Math.random, Math.sin and Math.sqrt are parameters
    (`Env`); Math.pow with a natural exponent is computed exactly. The HTTP
    call is its outcome (`Reply`). */
module MlServiceBackup {
  import opened Numeric
  import opened Text
  import opened Sequences
  import opened Outcomes
  import opened JsValues
  import opened ForecastApi

  type MonthNumber = m: int | 1 <= m <= 12 witness 1

  type NonNegReal = r: real | r >= 0.0

  /** What the model leaves to the environment. */
  datatype Env = Env(
    currentMonth: MonthNumber,    // new Date().getMonth() + 1
    sinOfMonth: int -> real,      // Math.sin(2 * Math.PI * m / 12)
    random: (nat, nat) -> real,   // the Math.random() drawn for category c at step i
    sqrt: real -> NonNegReal)     // Math.sqrt

  // ---------------------------------------------------------------- profiles

  datatype SpenderType = LowSpender | ModerateSpender | HighSpender | VeryHighSpender

  datatype Profile = Profile(kind: SpenderType, confidence: string, adaptiveScaling: real, scalingBounds: (real, real))

  function Rank(k: SpenderType): nat
  {
    match k
    case LowSpender => 0
    case ModerateSpender => 1
    case HighSpender => 2
    case VeryHighSpender => 3
  }

  /** The fixed table of the four profiles. */
  function ProfileOf(k: SpenderType): (p: Profile)
    ensures p.kind == k
    ensures 0.0 < p.scalingBounds.0 < 1.0 < p.scalingBounds.1
  {
    match k
    case LowSpender => Profile(k, "medium", 0.80, (0.1, 2.5))
    case ModerateSpender => Profile(k, "high", 0.95, (0.05, 3.0))
    case HighSpender => Profile(k, "medium", 1.10, (0.03, 4.0))
    case VeryHighSpender => Profile(k, "low", 1.25, (0.02, 5.0))
  }

  /** `categorizeSpendingProfile`: the thresholds 3000, 6000 and 15000
      partition the totals into four profiles (NaN falls through to the
      last). */
  function CategorizeSpendingProfile(total: JsNum): (p: Profile)
    ensures p == ProfileOf(p.kind)
    ensures p.kind == LowSpender <==> JsLess(total, 3000.0)
    ensures p.kind == ModerateSpender <==> !JsLess(total, 3000.0) && JsLess(total, 6000.0)
    ensures p.kind == HighSpender <==> !JsLess(total, 6000.0) && JsLess(total, 15000.0)
    ensures p.kind == VeryHighSpender <==> !JsLess(total, 15000.0)
  {
    if JsLess(total, 3000.0) then ProfileOf(LowSpender)
    else if JsLess(total, 6000.0) then ProfileOf(ModerateSpender)
    else if JsLess(total, 15000.0) then ProfileOf(HighSpender)
    else ProfileOf(VeryHighSpender)
  }

  /** Spending more never gives a lower profile. */
  lemma ProfileMonotone(x: real, y: real)
    requires x <= y
    ensures Rank(CategorizeSpendingProfile(Finite(x)).kind) <= Rank(CategorizeSpendingProfile(Finite(y)).kind)
  {
  }

  function TypeName(k: SpenderType): string
  {
    match k
    case LowSpender => "LOW_SPENDER"
    case ModerateSpender => "MODERATE_SPENDER"
    case HighSpender => "HIGH_SPENDER"
    case VeryHighSpender => "VERY_HIGH_SPENDER"
  }

  /** `statistical_${profile.type.toLowerCase()}`. */
  function ProfileMethod(k: SpenderType): string
  {
    "statistical_" + Lower(TypeName(k))
  }

  // ------------------------------------------------------------ window means

  /** `recentMean` / `longTermMean`: 0 for a non-array (None) or empty
      series; otherwise the mean of the positive values among the last
      `window` entries, or of all those entries when none is positive. */
  function WindowMean(series: Option<seq<real>>, window: nat): (r: real)
    ensures series.None? || series.value == [] ==> r == 0.0
    ensures series.Some? && (forall i :: 0 <= i < |series.value| ==> series.value[i] >= 0.0) ==>
      (r > 0.0 <==> exists i :: 0 <= i < |SliceFromEnd(series.value, window)| && SliceFromEnd(series.value, window)[i] > 0.0)
    ensures series.Some? && (forall i :: 0 <= i < |series.value| ==> series.value[i] >= 0.0) ==> r >= 0.0
  {
    if series.None? || |series.value| == 0 then 0.0
    else
      WindowMeanFacts(series.value, window);
      TailMean(SliceFromEnd(series.value, window))
  }

  /** The mean of the positive values of a window, or of the whole window
      when none is positive. */
  function TailMean(tail: seq<real>): real
  {
    var nz := PositivesOf(tail);
    Mean(if |nz| > 0 then nz else tail)
  }

  lemma WindowMeanFacts(s: seq<real>, window: nat)
    requires |s| > 0
    ensures var tail := SliceFromEnd(s, window);
      var nz := PositivesOf(tail);
      ((forall i :: 0 <= i < |s| ==> s[i] >= 0.0) ==> TailMean(tail) >= 0.0)
      && ((forall i :: 0 <= i < |s| ==> s[i] >= 0.0) ==>
          (TailMean(tail) > 0.0 <==> exists i :: 0 <= i < |tail| && tail[i] > 0.0))
  {
    var tail := SliceFromEnd(s, window);
    var nz := PositivesOf(tail);
    if forall i :: 0 <= i < |s| ==> s[i] >= 0.0 {
      assert forall i :: 0 <= i < |tail| ==> tail[i] == s[|s| - |tail| + i];
      if |nz| > 0 {
        PositiveMean(nz);
        assert nz[0] in tail;
      } else {
        FilterEmpty(tail);
        ZeroMean(tail);
      }
    }
  }

  /** The positive values, in order. */
  function PositivesOf(xs: seq<real>): (r: seq<real>)
    ensures forall x :: x in r <==> x in xs && x > 0.0
  {
    Filter(xs, (v: real) => v > 0.0)
  }

  lemma FilterEmpty(tail: seq<real>)
    requires |PositivesOf(tail)| == 0
    ensures forall i :: 0 <= i < |tail| ==> tail[i] <= 0.0
  {
    forall i | 0 <= i < |tail|
      ensures tail[i] <= 0.0
    {
      assert tail[i] in tail;
    }
  }

  lemma PositiveMean(xs: seq<real>)
    requires |xs| > 0 && forall i :: 0 <= i < |xs| ==> xs[i] > 0.0
    ensures Mean(xs) > 0.0
  {
    PositiveSum(xs);
  }

  lemma {:induction false} PositiveSum(xs: seq<real>)
    requires |xs| > 0 && forall i :: 0 <= i < |xs| ==> xs[i] > 0.0
    ensures Sum(xs) > 0.0
  {
    if |xs| > 1 {
      PositiveSum(xs[..|xs| - 1]);
    }
  }

  lemma ZeroMean(xs: seq<real>)
    requires forall i :: 0 <= i < |xs| ==> xs[i] == 0.0
    ensures Mean(xs) == 0.0
  {
    SumBounds(xs, 0.0, 0.0);
  }

  /** A window whose entries are all positive, or none of them, is averaged
      whole. */
  lemma WindowMeanWhole(s: seq<real>, window: nat)
    requires |s| > 0
    requires (forall i :: 0 <= i < |SliceFromEnd(s, window)| ==> SliceFromEnd(s, window)[i] > 0.0)
          || (forall i :: 0 <= i < |SliceFromEnd(s, window)| ==> SliceFromEnd(s, window)[i] <= 0.0)
    ensures WindowMean(Some(s), window) == Mean(SliceFromEnd(s, window))
  {
    var tail := SliceFromEnd(s, window);
    var nz := PositivesOf(tail);
    if forall i :: 0 <= i < |tail| ==> tail[i] > 0.0 {
      FilterKeepsAll(tail, (v: real) => v > 0.0);
      assert nz == tail;
    } else {
      assert |nz| == 0;
    }
    assert WindowMean(Some(s), window) == TailMean(tail);
  }

  /** When the window holds a positive value, the mean lies between any
      bounds of the window's positive values. */
  lemma WindowMeanBetween(s: seq<real>, window: nat, lo: real, hi: real)
    requires exists i :: 0 <= i < |SliceFromEnd(s, window)| && SliceFromEnd(s, window)[i] > 0.0
    requires forall i :: 0 <= i < |SliceFromEnd(s, window)| && SliceFromEnd(s, window)[i] > 0.0 ==>
      lo <= SliceFromEnd(s, window)[i] <= hi
    ensures lo <= WindowMean(Some(s), window) <= hi
  {
    var tail := SliceFromEnd(s, window);
    var nz := PositivesOf(tail);
    var k :| 0 <= k < |tail| && tail[k] > 0.0;
    assert tail[k] in nz;
    forall i | 0 <= i < |nz|
      ensures lo <= nz[i] <= hi
    {
      assert nz[i] in tail;
    }
    MeanBounds(nz, lo, hi);
    assert WindowMean(Some(s), window) == Mean(nz);
  }

  /** The mean depends only on the last `window` entries. */
  lemma WindowMeanSuffix(older: seq<real>, recent: seq<real>, window: nat)
    requires 0 < window <= |recent|
    ensures WindowMean(Some(older + recent), window) == WindowMean(Some(recent), window)
  {
    var s := older + recent;
    var tail := recent[|recent| - window..];
    assert SliceFromEnd(recent, window) == tail;
    assert SliceFromEnd(s, window) == tail by {
      assert s[|s| - window..] == tail;
    }
    assert WindowMean(Some(s), window) == TailMean(tail);
    assert WindowMean(Some(recent), window) == TailMean(tail);
  }

  /** The window mean lies within the bounds of the window's values. */
  lemma WindowMeanBounds(s: seq<real>, window: nat, hi: real)
    requires 0.0 <= hi
    requires forall i :: 0 <= i < |s| ==> 0.0 <= s[i] <= hi
    ensures 0.0 <= WindowMean(Some(s), window) <= hi
  {
    if |s| > 0 {
      var tail := SliceFromEnd(s, window);
      TailBounds(s, window, hi);
      ChosenMeanBounds(tail, hi);
      assert WindowMean(Some(s), window) == TailMean(tail);
    }
  }

  lemma ChosenMeanBounds(tail: seq<real>, hi: real)
    requires |tail| > 0
    requires forall i :: 0 <= i < |tail| ==> 0.0 <= tail[i] <= hi
    ensures 0.0 <= TailMean(tail) <= hi
  {
    var nz := PositivesOf(tail);
    if |nz| > 0 {
      FilterBounds(tail, hi);
      MeanBounds(nz, 0.0, hi);
    } else {
      MeanBounds(tail, 0.0, hi);
    }
  }

  lemma TailBounds(s: seq<real>, window: nat, hi: real)
    requires forall i :: 0 <= i < |s| ==> 0.0 <= s[i] <= hi
    ensures forall i :: 0 <= i < |SliceFromEnd(s, window)| ==> 0.0 <= SliceFromEnd(s, window)[i] <= hi
  {
    var tail := SliceFromEnd(s, window);
    assert forall i :: 0 <= i < |tail| ==> tail[i] == s[|s| - |tail| + i];
  }

  lemma FilterBounds(tail: seq<real>, hi: real)
    requires forall i :: 0 <= i < |tail| ==> 0.0 <= tail[i] <= hi
    ensures forall i :: 0 <= i < |PositivesOf(tail)| ==> 0.0 <= PositivesOf(tail)[i] <= hi
  {
    var nz := PositivesOf(tail);
    forall i | 0 <= i < |nz|
      ensures 0.0 <= nz[i] <= hi
    {
      assert nz[i] in tail;
    }
  }

  function RecentMean(series: Option<seq<real>>): real { WindowMean(series, 6) }

  function LongTermMean(series: Option<seq<real>>): real { WindowMean(series, 12) }

  // ------------------------------------------------------------ sanitising

  /** What one element of a history series reads as: objects (and arrays,
      which are objects too) through `total ?? amount ?? value ?? v ?? y`,
      everything else through Number. */
  function ItemNumber(item: JsValue, host: Host): JsNum
  {
    if item.Obj? || item.Arr? then
      ToNumber(Coalesce(Get(item, "total"), Coalesce(Get(item, "amount"), Coalesce(Get(item, "value"),
        Coalesce(Get(item, "v"), Coalesce(Get(item, "y"), Num(NaN)))))), host)
    else ToNumber(item, host)
  }

  function Converted(items: seq<JsValue>, host: Host): (r: seq<JsNum>)
    ensures |r| == |items| && forall i :: 0 <= i < |items| ==> r[i] == ItemNumber(items[i], host)
  {
    seq(|items|, i requires 0 <= i < |items| => ItemNumber(items[i], host))
  }

  /** `sanitizeSeries`: [] for a non-array; otherwise exactly the usable
      converted values, in their original order. */
  function SanitizeSeries(series: JsValue, host: Host): (r: seq<real>)
    ensures !series.Arr? ==> r == []
    ensures forall i :: 0 <= i < |r| ==> r[i] >= 0.0
    ensures series.Arr? ==> Nums(r) == Filter(Converted(series.items, host), Usable)
    ensures series.Arr? ==> IsSubsequence(Nums(r), Converted(series.items, host))
    ensures series.Arr? ==> forall n :: n in Converted(series.items, host) && Usable(n) <==> n in Nums(r)
  {
    if !series.Arr? then []
    else
      var kept := Filter(Converted(series.items, host), Usable);
      var r := Reals(kept);
      assert Nums(r) == kept;
      r
  }

  /** A series of plain non-negative numbers passes unchanged. */
  lemma SanitizeClean(xs: seq<real>, host: Host)
    requires forall i :: 0 <= i < |xs| ==> xs[i] >= 0.0
    ensures SanitizeSeries(Arr(NumValues(xs)), host) == xs
  {
    var items := NumValues(xs);
    assert Converted(items, host) == Nums(xs);
    FilterKeepsAll(Nums(xs), Usable);
  }

  function NumValues(xs: seq<real>): (r: seq<JsValue>)
    ensures |r| == |xs| && forall i :: 0 <= i < |xs| ==> r[i] == Num(Finite(xs[i]))
  {
    seq(|xs|, i requires 0 <= i < |xs| => Num(Finite(xs[i])))
  }

  /** Sanitising is idempotent. */
  lemma SanitizeIdempotent(series: JsValue, host: Host)
    ensures SanitizeSeries(Arr(NumValues(SanitizeSeries(series, host))), host) == SanitizeSeries(series, host)
  {
    SanitizeClean(SanitizeSeries(series, host), host);
  }

  /** The entries Object.entries yields: an object's own entries, an
      array's or string's indexed elements, nothing for other values. */
  function ObjectEntries(v: JsValue): (e: seq<(string, JsValue)>)
    ensures v.Obj? ==> e == v.entries
    ensures !(v.Obj? || v.Arr? || v.Str?) ==> e == []
  {
    match v
    case Obj(entries) => entries
    case Arr(items) => seq(|items|, i requires 0 <= i < |items| => (NatToString(i), items[i]))
    case Str(s) => seq(|s|, i requires 0 <= i < |s| => (NatToString(i), Str([s[i]])))
    case _ => []
  }

  function SanitizeEntries(e: seq<(string, JsValue)>, host: Host): (c: seq<(string, seq<real>)>)
    ensures |c| == |e| && forall k :: 0 <= k < |e| ==> c[k] == (e[k].0, SanitizeSeries(e[k].1, host))
  {
    seq(|e|, k requires 0 <= k < |e| => (e[k].0, SanitizeSeries(e[k].1, host)))
  }

  /** The categories of the unconfigured branch: an array is one
      'Uncategorized' series, anything else its entries, sanitised. */
  function NoApiCategories(data: JsValue, host: Host): (c: seq<(string, seq<real>)>)
    ensures data.Arr? ==> c == [("Uncategorized", SanitizeSeries(data, host))]
    ensures data.Obj? ==> c == SanitizeEntries(data.entries, host)
  {
    if data.Arr? then [("Uncategorized", SanitizeSeries(data, host))]
    else SanitizeEntries(ObjectEntries(data), host)
  }

  /** The categories sent to the model: as above, except that an object
      whose key "0" holds a number is also read as one series (of which
      nothing survives sanitising). */
  function ApiCategories(data: JsValue, host: Host): (c: seq<(string, seq<real>)>)
    ensures data.Arr? || Get(data, "0").Num? ==> c == [("Uncategorized", SanitizeSeries(data, host))]
    ensures !data.Arr? && !Get(data, "0").Num? ==> c == NoApiCategories(data, host)
  {
    if data.Arr? || Get(data, "0").Num? then [("Uncategorized", SanitizeSeries(data, host))]
    else SanitizeEntries(ObjectEntries(data), host)
  }

  // ---------------------------------------------------- statistical fallback

  /** Growth per month, seasonal amplitude and random spread of a fallback. */
  datatype StepParams = StepParams(growth: real, seasonality: real, variability: real)

  /** fallbackMean's parameters: utilities are twice as seasonal. */
  function DefaultParams(cat: string): (s: StepParams)
    ensures s.growth == 1.005 && s.variability == 0.3
    ensures s.seasonality == (if Includes(Lower(cat), "utilities") then 0.1 else 0.05)
  {
    StepParams(1.005, if Includes(Lower(cat), "utilities") then 0.1 else 0.05, 0.3)
  }

  /** fallbackMeanWithProfile's parameters per profile. */
  function ProfileParams(k: SpenderType): (s: StepParams)
    ensures s.growth >= 1.0 && 0.0 < s.variability <= 0.5
  {
    match k
    case LowSpender => StepParams(1.005, 0.08, 0.2)
    case ModerateSpender => StepParams(1.015, 0.15, 0.3)
    case HighSpender => StepParams(1.025, 0.25, 0.4)
    case VeryHighSpender => StepParams(1.035, 0.35, 0.5)
  }

  /** `((currentMonth + i - 1) % 12) + 1`. */
  function MonthInPrediction(month: MonthNumber, i: nat): (m: MonthNumber)
  {
    ((month + i - 1) % 12) + 1
  }

  /** The prediction of step i for a category with mean `mean`: trend times
      season times noise, clamped to [0.5 mean, 1.5 mean] and rounded, so
      it lies in [round(0.5 mean), round(1.5 mean)] whatever the noise and
      season are. */
  function StepForecast(mean: real, c: nat, i: nat, params: StepParams, env: Env): (v: int)
    ensures mean >= 0.0 ==> Round(0.5 * mean) <= v <= Round(1.5 * mean)
  {
    var trended := mean * Pow(params.growth, i);
    var seasonal := 1.0 + params.seasonality * env.sinOfMonth(MonthInPrediction(env.currentMonth, i));
    var randomFactor := 1.0 + (env.random(c, i) - 0.5) * params.variability;
    var prediction := trended * seasonal * randomFactor;
    var clamped := Clamp(prediction, mean * 0.5, mean * 1.5);
    assert mean >= 0.0 ==> 0.5 * mean <= clamped <= 1.5 * mean;
    Round(clamped)
  }

  /** The non-negative values of a series (the re-filtering the fallback
      applies to its already sanitised input). */
  function NonNegative(series: seq<real>): (r: seq<real>)
    ensures forall i :: 0 <= i < |r| ==> r[i] >= 0.0
  {
    Filter(series, (v: real) => v >= 0.0)
  }

  /** One category's fallback series: horizon zeros without usable values,
      otherwise one bounded step forecast per step. The horizon fits an
      array: a longer one has already thrown at the `total` allocation. */
  function CategoryForecast(series: seq<real>, c: nat, params: StepParams, horizon: nat, env: Env): (preds: seq<int>)
    requires horizon <= MaxArrayLength
    ensures |preds| == horizon
    ensures |NonNegative(series)| == 0 ==> preds == Repeat(0, horizon)
    ensures |NonNegative(series)| > 0 ==> forall i :: 0 <= i < horizon ==>
      Round(0.5 * Mean(NonNegative(series))) <= preds[i] <= Round(1.5 * Mean(NonNegative(series)))
  {
    var numeric := NonNegative(series);
    if |numeric| == 0 then Repeat(0, horizon)
    else
      var mean := Mean(numeric);
      MeanNonNegative(numeric);
      seq(horizon, i requires 0 <= i < horizon => StepForecast(mean, c, i, params, env))
  }

  /** The fallback table, category by category. */
  function FallbackTable(categories: seq<(string, seq<real>)>, horizon: nat, params: string -> StepParams, env: Env): (t: seq<(string, seq<int>)>)
    requires horizon <= MaxArrayLength
    ensures |t| == |categories|
    ensures forall c :: 0 <= c < |t| ==> t[c].0 == categories[c].0 && |t[c].1| == horizon
  {
    seq(|categories|, c requires 0 <= c < |categories| =>
      (categories[c].0, CategoryForecast(categories[c].1, c, params(categories[c].0), horizon, env)))
  }

  function SeriesOf<T>(t: seq<(string, seq<T>)>): (s: seq<seq<T>>)
    ensures |s| == |t| && forall c :: 0 <= c < |t| ==> s[c] == t[c].1
  {
    seq(|t|, c requires 0 <= c < |t| => t[c].1)
  }

  /** One category's step loop. */
  method CategorySeries(series: seq<real>, c: nat, params: StepParams, horizon: nat, env: Env) returns (preds: seq<int>)
    requires horizon <= MaxArrayLength
    ensures preds == CategoryForecast(series, c, params, horizon, env)
  {
    var numeric := NonNegative(series);
    if |numeric| == 0 {
      return Repeat(0, horizon);
    }
    var mean := Mean(numeric);
    preds := [];
    var i := 0;
    while i < horizon
      invariant 0 <= i <= horizon
      invariant |preds| == i && forall j :: 0 <= j < i ==> preds[j] == StepForecast(mean, c, j, params, env)
    {
      preds := preds + [StepForecast(mean, c, i, params, env)];
      i := i + 1;
    }
  }

  /** Adding one series to a table adds it into every column sum. */
  lemma AddSeries(before: seq<(string, seq<int>)>, row: (string, seq<int>), total: seq<int>, horizon: nat)
    requires forall c :: 0 <= c < |before| ==> |before[c].1| == horizon
    requires |row.1| == horizon
    requires |total| == horizon && forall i :: 0 <= i < horizon ==> total[i] == SumInt(Column(SeriesOf(before), i))
    ensures forall i :: 0 <= i < horizon ==> total[i] + row.1[i] == SumInt(Column(SeriesOf(before + [row]), i))
  {
    forall i | 0 <= i < horizon
      ensures total[i] + row.1[i] == SumInt(Column(SeriesOf(before + [row]), i))
    {
      var col := Column(SeriesOf(before + [row]), i);
      assert col[..|col| - 1] == Column(SeriesOf(before), i);
    }
  }

  lemma FallbackTablePrefix(categories: seq<(string, seq<real>)>, k: nat, horizon: nat, params: string -> StepParams, env: Env)
    requires k < |categories| && horizon <= MaxArrayLength
    ensures FallbackTable(categories[..k + 1], horizon, params, env)
      == FallbackTable(categories[..k], horizon, params, env)
         + [(categories[k].0, CategoryForecast(categories[k].1, k, params(categories[k].0), horizon, env))]
  {
  }

  /** The loop of `fallbackMean` / `fallbackMeanWithProfile`: one series per
      category, and the running `total` adds every series into it. */
  method StatisticalForecast(categories: seq<(string, seq<real>)>, horizon: nat, params: string -> StepParams, env: Env)
    returns (result: seq<(string, seq<int>)>, total: seq<int>)
    requires horizon <= MaxArrayLength
    ensures result == FallbackTable(categories, horizon, params, env)
    ensures |total| == horizon && forall i :: 0 <= i < horizon ==> total[i] == SumInt(Column(SeriesOf(result), i))
  {
    result := [];
    total := Repeat(0, horizon);
    var k := 0;
    while k < |categories|
      invariant 0 <= k <= |categories|
      invariant result == FallbackTable(categories[..k], horizon, params, env)
      invariant |total| == horizon && forall i :: 0 <= i < horizon ==> total[i] == SumInt(Column(SeriesOf(result), i))
    {
      var (cat, series) := categories[k];
      var preds := CategorySeries(series, k, params(cat), horizon, env);
      AddSeries(result, (cat, preds), total, horizon);
      FallbackTablePrefix(categories, k, horizon, params, env);
      result := result + [(cat, preds)];
      total := seq(horizon, i requires 0 <= i < horizon => total[i] + preds[i]);
      k := k + 1;
    }
    assert categories[..|categories|] == categories;
  }

  /** A forecast as the service returns it. */
  datatype ForecastResult = ForecastResult(
    categories: seq<(string, seq<JsNum>)>,
    total: seq<JsNum>,
    predictionMethod: string,
    confidence: Option<string>)

  function IntTable(t: seq<(string, seq<int>)>): (r: seq<(string, seq<JsNum>)>)
    ensures |r| == |t| && forall c :: 0 <= c < |t| ==> r[c] == (t[c].0, Ints(t[c].1))
  {
    seq(|t|, c requires 0 <= c < |t| => (t[c].0, Ints(t[c].1)))
  }

  /** The column sums of a fallback table: the `total` series. */
  function FallbackTotals(t: seq<(string, seq<int>)>, horizon: nat): (total: seq<int>)
    requires forall c :: 0 <= c < |t| ==> |t[c].1| == horizon
    ensures |total| == horizon && forall i :: 0 <= i < horizon ==> total[i] == SumInt(Column(SeriesOf(t), i))
  {
    seq(horizon, i requires 0 <= i < horizon => SumInt(Column(SeriesOf(t), i)))
  }

  /** What the two fallbacks return: the table, its column sums, a tag and
      an optional confidence. */
  function FallbackResult(categories: seq<(string, seq<real>)>, horizon: nat, params: string -> StepParams, env: Env,
                          tag: string, confidence: Option<string>): ForecastResult
    requires horizon <= MaxArrayLength
  {
    var t := FallbackTable(categories, horizon, params, env);
    ForecastResult(IntTable(t), Ints(FallbackTotals(t, horizon)), tag, confidence)
  }

  /** The statistical fallback never predicts a negative amount, neither per
      category nor in total, and gives `horizon` values everywhere. */
  lemma {:induction false} FallbackNonNegative(categories: seq<(string, seq<real>)>, horizon: nat, params: string -> StepParams, env: Env)
    requires horizon <= MaxArrayLength
    ensures var t := FallbackTable(categories, horizon, params, env);
      (forall c, i :: 0 <= c < |t| && 0 <= i < horizon ==> t[c].1[i] >= 0)
      && forall i :: 0 <= i < horizon ==> FallbackTotals(t, horizon)[i] >= 0
  {
    var t := FallbackTable(categories, horizon, params, env);
    forall c, i | 0 <= c < |t| && 0 <= i < horizon
      ensures t[c].1[i] >= 0
    {
      CategoryNonNegative(categories[c].1, c, params(categories[c].0), horizon, env, i);
    }
    forall i | 0 <= i < horizon
      ensures FallbackTotals(t, horizon)[i] >= 0
    {
      SumIntNonNegative(Column(SeriesOf(t), i));
    }
  }

  lemma CategoryNonNegative(series: seq<real>, c: nat, params: StepParams, horizon: nat, env: Env, i: nat)
    requires i < horizon <= MaxArrayLength
    ensures CategoryForecast(series, c, params, horizon, env)[i] >= 0
  {
    var numeric := NonNegative(series);
    if |numeric| > 0 {
      MeanNonNegative(numeric);
      RoundMonotone(0.0, 0.5 * Mean(numeric));
      RoundOfInt(0);
    }
  }

  /** `fallbackMean`: every category through the default parameters,
      tagged 'statistical'; a horizon too long for `Array(horizon)` throws
      a RangeError before any category is looked at. */
  method FallbackMean(categories: seq<(string, seq<real>)>, horizon: nat, env: Env) returns (r: Result<ForecastResult, ServiceError>)
    ensures horizon > MaxArrayLength <==> r.Err?
    ensures r.Err? ==> r.error == RangeError
    ensures r.Ok? ==> r.value == FallbackResult(categories, horizon, DefaultParams, env, "statistical", None)
  {
    if horizon > MaxArrayLength {
      return Err(RangeError);
    }
    var result, total := StatisticalForecast(categories, horizon, DefaultParams, env);
    assert total == FallbackTotals(result, horizon);
    return Ok(ForecastResult(IntTable(result), Ints(total), "statistical", None));
  }

  /** `fallbackMeanWithProfile`: the profile fixes the parameters, the tag
      and the confidence. */
  method FallbackMeanWithProfile(categories: seq<(string, seq<real>)>, horizon: nat, profile: Profile, env: Env)
    returns (r: Result<ForecastResult, ServiceError>)
    ensures horizon > MaxArrayLength <==> r.Err?
    ensures r.Err? ==> r.error == RangeError
    ensures r.Ok? ==> r.value == FallbackResult(categories, horizon, _ => ProfileParams(profile.kind), env,
                                                ProfileMethod(profile.kind), Some(profile.confidence))
  {
    if horizon > MaxArrayLength {
      return Err(RangeError);
    }
    var result, total := StatisticalForecast(categories, horizon, _ => ProfileParams(profile.kind), env);
    assert total == FallbackTotals(result, horizon);
    return Ok(ForecastResult(IntTable(result), Ints(total), ProfileMethod(profile.kind), Some(profile.confidence)));
  }

  // --------------------------------------------------------- scaling policy

  /** The ratio rail: a model mean more than 5 times (or below 0.2 times) the
      history is brought to that multiple, rent below 0.8 times is raised to
      0.8 times, and a category without history keeps factor 1. */
  function RailFactor(cat: string, rawMean: real, target: real): (f: real)
    ensures target == 0.0 ==> f == 1.0
    ensures rawMean > 0.0 && target > 0.0 ==> 0.2 * target <= rawMean * f <= 5.0 * target
    ensures rawMean > 0.0 && target > 0.0 && Includes(Lower(cat), "rent") ==> rawMean * f >= 0.8 * target
    ensures (rawMean > 0.0 && target > 0.0 && 0.2 * target <= rawMean <= 5.0 * target
      && !(Includes(Lower(cat), "rent") && rawMean < 0.8 * target)) ==> f == 1.0
    ensures !(rawMean > 0.0 && target > 0.0) ==> f == 1.0
  {
    if rawMean > 0.0 && target > 0.0 then
      var ratio := rawMean / target;
      RatioFacts(rawMean, target);
      var f0 := if ratio > 5.0 then 5.0 * target / rawMean else if ratio < 0.2 then 0.2 * target / rawMean else 1.0;
      var f1 := if Includes(Lower(cat), "rent") && ratio < 0.8 then 0.8 * target / rawMean else f0;
      f1
    else 1.0
  }

  lemma RatioFacts(rawMean: real, target: real)
    requires rawMean > 0.0 && target > 0.0
    ensures rawMean / target > 5.0 <==> rawMean > 5.0 * target
    ensures rawMean / target < 0.2 <==> rawMean < 0.2 * target
    ensures rawMean / target < 0.8 <==> rawMean < 0.8 * target
    ensures rawMean * (5.0 * target / rawMean) == 5.0 * target
    ensures rawMean * (0.2 * target / rawMean) == 0.2 * target
    ensures rawMean * (0.8 * target / rawMean) == 0.8 * target
  {
    DivCompare(rawMean, target, 5.0);
    DivCompare(rawMean, target, 0.2);
    DivCompare(rawMean, target, 0.8);
  }

  /** Comparing a quotient with c is comparing the dividend with c times a
      positive divisor. */
  lemma DivCompare(a: real, b: real, c: real)
    requires b > 0.0
    ensures a / b > c <==> a > c * b
    ensures a / b < c <==> a < c * b
  {
    var q := a / b;
    assert q * b == a;
    assert (q - c) * b == a - c * b;
    SignOfProduct(q - c, b);
  }

  /** With a positive factor y, x * y has the sign of x. */
  lemma SignOfProduct(x: real, y: real)
    requires y > 0.0
    ensures x > 0.0 <==> x * y > 0.0
    ensures x < 0.0 <==> x * y < 0.0
  {
  }

  /** `historicalVariance`: the root of the mean squared deviation from the
      target, when there are more than three values. */
  function HistoricalVariance(hist: seq<real>, target: real, env: Env): real
  {
    if |hist| > 3 then env.sqrt(Sum(SquaredDeviations(hist, target)) / |hist| as real) else 0.0
  }

  function SquaredDeviations(xs: seq<real>, centre: real): (r: seq<real>)
    ensures |r| == |xs|
  {
    seq(|xs|, i requires 0 <= i < |xs| => (xs[i] - centre) * (xs[i] - centre))
  }

  /** The coefficient of variation, 1 when there is no target. */
  function CoefficientOfVariation(target: real, variance: real): real
  {
    if target > 0.0 then variance / target else 1.0
  }

  /** The history's weight for a stable category. */
  function StableWeight(cv: real): (w: real)
    ensures cv < 0.2 ==> 0.62 < w <= 0.7
  {
    Min(0.7, 0.3 + 0.4 * (1.0 - cv))
  }

  /** The history's weight for a volatile category. */
  function VolatileWeight(cv: real): (w: real)
    ensures cv > 0.5 ==> 0.2 <= w < 0.4
  {
    Max(0.2, 0.6 - 0.4 * cv)
  }

  /** The factor that moves the model mean to the weighted target. */
  function WeightedFactor(rawMean: real, target: real, w: real): (f: real)
    ensures rawMean > 0.0 ==> rawMean * f == rawMean * (1.0 - w) + target * w
    ensures rawMean <= 0.0 ==> f == 1.0
  {
    if rawMean > 0.0 then (rawMean * (1.0 - w) + target * w) / rawMean else 1.0
  }

  /** The variance blend: stable categories (cv < 0.2) and volatile ones
      (cv > 0.5) replace the rail's factor by a weighted one. */
  function BlendFactor(f: real, rawMean: real, target: real, cv: real): (g: real)
    ensures cv < 0.2 ==> g == WeightedFactor(rawMean, target, StableWeight(cv))
    ensures cv > 0.5 ==> g == WeightedFactor(rawMean, target, VolatileWeight(cv))
    ensures 0.2 <= cv <= 0.5 ==> g == f
  {
    if cv < 0.2 then WeightedFactor(rawMean, target, StableWeight(cv))
    else if cv > 0.5 then WeightedFactor(rawMean, target, VolatileWeight(cv))
    else f
  }

  /** `maxDeviation`: 1 without history, shrinking to 0.5 at six values. */
  function MaxDeviation(histLen: nat): (d: real)
    ensures 0.5 <= d <= 1.0
    ensures histLen >= 6 ==> d == 0.5
    ensures histLen == 0 ==> d == 1.0
  {
    0.5 + 0.5 * (1.0 - Min(1.0, histLen as real / 6.0))
  }

  /** The per-category factor: rail, blend, then the reliability bounds. */
  function ScalingFactor(cat: string, rawMean: real, target: real, histLen: nat, variance: real): (f: real)
    ensures 1.0 - MaxDeviation(histLen) <= f <= 1.0 + MaxDeviation(histLen)
    ensures 0.0 <= f <= 2.0
  {
    var d := MaxDeviation(histLen);
    var g := BlendFactor(RailFactor(cat, rawMean, target), rawMean, target, CoefficientOfVariation(target, variance));
    Clamp(g, 1.0 - d, 1.0 + d)
  }

  /** Without history the coefficient of variation is 1, so the volatile
      blend applies and a category the model gives a positive mean ends at
      factor 0.8, not at the 1.0 "trust the model" assigned before. */
  lemma NoHistoryFactor(cat: string, rawMean: real, histLen: nat, variance: real)
    ensures rawMean > 0.0 ==> ScalingFactor(cat, rawMean, 0.0, histLen, variance) == 0.8
    ensures rawMean <= 0.0 ==> ScalingFactor(cat, rawMean, 0.0, histLen, variance) == 1.0
  {
    assert VolatileWeight(1.0) == 0.2;
  }

  /** A stable category with full history and a model mean on target keeps
      factor 1. */
  lemma OnTargetStable(cat: string, target: real, histLen: nat, variance: real)
    requires target > 0.0 && 0.0 <= variance < 0.2 * target
    ensures ScalingFactor(cat, target, target, histLen, variance) == 1.0
  {
    var cv := CoefficientOfVariation(target, variance);
    assert cv < 0.2 by {
      assert variance / target * target == variance;
    }
    var w := StableWeight(cv);
    assert target * WeightedFactor(target, target, w) == target;
  }

  // ------------------------------------------------------ the model's answer

  /** `Array.isArray(vals) ? vals.map(Number) : []`. */
  function Predicted(vals: JsValue, host: Host): (p: seq<JsNum>)
    ensures !vals.Arr? ==> p == []
    ensures vals.Arr? ==> |p| == |vals.items| && forall i :: 0 <= i < |p| ==> p[i] == ToNumber(vals.items[i], host)
  {
    if vals.Arr? then seq(|vals.items|, i requires 0 <= i < |vals.items| => ToNumber(vals.items[i], host)) else []
  }

  function FiniteOrZero(p: seq<JsNum>): (r: seq<real>)
    ensures |r| == |p| && forall i :: 0 <= i < |p| ==> r[i] == (if p[i].Finite? then p[i].r else 0.0)
  {
    seq(|p|, i requires 0 <= i < |p| => if p[i].Finite? then p[i].r else 0.0)
  }

  /** `Math.max(0, Math.round(v * scalingFactor))`. */
  function ScaleValue(v: JsNum, f: real): (r: JsNum)
    ensures v.Finite? ==> r.Finite? && r.r >= 0.0 && r.r == r.r.Floor as real
    ensures v == NaN ==> r == NaN
  {
    JsMax0(JsRound(JsScale(v, f)))
  }

  /** `categories[cat]`: the first series under that name. */
  function LookupSeries(categories: seq<(string, seq<real>)>, cat: string): (r: Option<seq<real>>)
    ensures r.Some? <==> exists k :: 0 <= k < |categories| && categories[k].0 == cat
    ensures r.Some? ==> r.value in SeriesOf(categories)
  {
    if |categories| == 0 then None
    else if categories[0].0 == cat then Some(categories[0].1)
    else
      var r := LookupSeries(categories[1..], cat);
      assert r.Some? ==> r.value in SeriesOf(categories[1..]);
      assert forall s :: s in SeriesOf(categories[1..]) ==> s in SeriesOf(categories);
      r
  }

  /** `histMeans[cat] || 0`. */
  function Target(categories: seq<(string, seq<real>)>, cat: string): real
  {
    var h := LookupSeries(categories, cat);
    if h.Some? then RecentMean(h) else 0.0
  }

  /** One category of the model's answer, rescaled. */
  function CleanSeries(cat: string, vals: JsValue, categories: seq<(string, seq<real>)>, env: Env, host: Host): (s: seq<JsNum>)
    ensures |s| == |Predicted(vals, host)|
    ensures forall i :: 0 <= i < |s| && Predicted(vals, host)[i].Finite? ==> s[i].Finite? && s[i].r >= 0.0 && s[i].r == s[i].r.Floor as real
  {
    var p := Predicted(vals, host);
    if |p| == 0 then []
    else
      var rawMean := Sum(FiniteOrZero(p)) / |p| as real;
      var target := Target(categories, cat);
      var h := LookupSeries(categories, cat);
      var hist := if h.Some? then h.value else [];
      var f := ScalingFactor(cat, rawMean, target, |hist|, HistoricalVariance(hist, target, env));
      seq(|p|, i requires 0 <= i < |p| => ScaleValue(p[i], f))
  }

  /** `recomputedTotal[i] = (recomputedTotal[i] || 0) + v` for every i of one
      series. */
  function AddInto(acc: seq<JsNum>, v: seq<JsNum>): (r: seq<JsNum>)
    ensures |r| == (if |acc| >= |v| then |acc| else |v|)
  {
    var n := if |acc| >= |v| then |acc| else |v|;
    seq(n, i requires 0 <= i < n =>
      if i < |v| then JsAdd(if i < |acc| then OrZero(acc[i]) else Finite(0.0), v[i]) else acc[i])
  }

  function Totals(series: seq<seq<JsNum>>): seq<JsNum>
  {
    if |series| == 0 then [] else AddInto(Totals(series[..|series| - 1]), series[|series| - 1])
  }

  /** The longest series' length. */
  function MaxLength<T>(series: seq<seq<T>>): nat
  {
    if |series| == 0 then 0
    else
      var m := MaxLength(series[..|series| - 1]);
      if |series[|series| - 1]| > m then |series[|series| - 1]| else m
  }

  /** The sum over the series that reach index i of their value there. */
  function ColumnSum(series: seq<seq<JsNum>>, i: nat): real
  {
    if |series| == 0 then 0.0
    else
      var last := series[|series| - 1];
      ColumnSum(series[..|series| - 1], i) + (if i < |last| && last[i].Finite? then last[i].r else 0.0)
  }

  predicate AllFinite(series: seq<seq<JsNum>>)
  {
    forall c, i :: 0 <= c < |series| && 0 <= i < |series[c]| ==> series[c][i].Finite?
  }

  /** With finite values, the running total at i is the sum of the values at
      i, over every series long enough to have one. */
  lemma {:induction false} TotalsAreColumnSums(series: seq<seq<JsNum>>)
    requires AllFinite(series)
    ensures |Totals(series)| == MaxLength(series)
    ensures forall i :: 0 <= i < |Totals(series)| ==> Totals(series)[i] == Finite(ColumnSum(series, i))
  {
    if |series| > 0 {
      var init := series[..|series| - 1];
      TotalsAreColumnSums(init);
      var acc, last := Totals(init), series[|series| - 1];
      forall i | 0 <= i < |Totals(series)|
        ensures Totals(series)[i] == Finite(ColumnSum(series, i))
      {
        if i < |last| {
          assert last[i].Finite?;
          if i >= |acc| {
            ColumnSumBeyond(init, i);
          }
        }
      }
    }
  }

  lemma {:induction false} ColumnSumBeyond(series: seq<seq<JsNum>>, i: nat)
    requires i >= MaxLength(series)
    ensures ColumnSum(series, i) == 0.0
  {
    if |series| > 0 {
      ColumnSumBeyond(series[..|series| - 1], i);
    }
  }

  /** The inner loop: one series added into the running total. */
  method Accumulate(total: seq<JsNum>, scaled: seq<JsNum>) returns (next: seq<JsNum>)
    ensures next == AddInto(total, scaled)
  {
    next := total;
    var i := 0;
    while i < |scaled|
      invariant 0 <= i <= |scaled|
      invariant |next| == (if |total| >= i then |total| else i)
      invariant forall j :: 0 <= j < |next| ==>
        (next[j] == if j < i then JsAdd(if j < |total| then OrZero(total[j]) else Finite(0.0), scaled[j]) else total[j])
    {
      if i < |next| {
        next := next[i := JsAdd(OrZero(next[i]), scaled[i])];
      } else {
        next := next + [JsAdd(Finite(0.0), scaled[i])];
      }
      i := i + 1;
    }
  }

  lemma TotalsStep(clean: seq<(string, seq<JsNum>)>, row: (string, seq<JsNum>))
    ensures Totals(SeriesOf(clean + [row])) == AddInto(Totals(SeriesOf(clean)), row.1)
  {
    assert SeriesOf(clean + [row])[..|clean|] == SeriesOf(clean);
  }

  /** The loop over the model's categories: each is rescaled, and the
      running total accumulates the rescaled values. */
  method Reconcile(cats: seq<(string, JsValue)>, categories: seq<(string, seq<real>)>, env: Env, host: Host)
    returns (clean: seq<(string, seq<JsNum>)>, total: seq<JsNum>)
    ensures clean == CleanTable(cats, categories, env, host)
    ensures total == Totals(SeriesOf(clean))
  {
    clean := [];
    total := [];
    var k := 0;
    while k < |cats|
      invariant 0 <= k <= |cats|
      invariant clean == CleanTable(cats[..k], categories, env, host)
      invariant total == Totals(SeriesOf(clean))
    {
      var (cat, vals) := cats[k];
      var scaled := CleanSeries(cat, vals, categories, env, host);
      total := Accumulate(total, scaled);
      TotalsStep(clean, (cat, scaled));
      CleanTablePrefix(cats, k, categories, env, host);
      clean := clean + [(cat, scaled)];
      k := k + 1;
    }
    assert cats[..|cats|] == cats;
  }

  lemma CleanTablePrefix(cats: seq<(string, JsValue)>, k: nat, categories: seq<(string, seq<real>)>, env: Env, host: Host)
    requires k < |cats|
    ensures CleanTable(cats[..k + 1], categories, env, host)
      == CleanTable(cats[..k], categories, env, host) + [(cats[k].0, CleanSeries(cats[k].0, cats[k].1, categories, env, host))]
  {
  }

  /** The model's categories, each rescaled. */
  function CleanTable(cats: seq<(string, JsValue)>, categories: seq<(string, seq<real>)>, env: Env, host: Host): (t: seq<(string, seq<JsNum>)>)
    ensures |t| == |cats| && forall k :: 0 <= k < |cats| ==> t[k] == (cats[k].0, CleanSeries(cats[k].0, cats[k].1, categories, env, host))
  {
    seq(|cats|, k requires 0 <= k < |cats| => (cats[k].0, CleanSeries(cats[k].0, cats[k].1, categories, env, host)))
  }

  // --------------------------------------------------------------- backstop

  /** `histTotalAvg`: the sum of the categories' recent means. */
  function HistTotalAvg(categories: seq<(string, seq<real>)>): real
  {
    Sum(HistMeans(categories))
  }

  /** `histMeans`, category by category. */
  function HistMeans(categories: seq<(string, seq<real>)>): (m: seq<real>)
    ensures |m| == |categories| && forall c :: 0 <= c < |categories| ==> m[c] == RecentMean(Some(categories[c].1))
  {
    seq(|categories|, c requires 0 <= c < |categories| => RecentMean(Some(categories[c].1)))
  }

  /** Sanitised history has a non-negative historical total. */
  lemma HistTotalAvgNonNegative(categories: seq<(string, seq<real>)>)
    requires forall c :: 0 <= c < |categories| ==> forall i :: 0 <= i < |categories[c].1| ==> categories[c].1[i] >= 0.0
    ensures HistTotalAvg(categories) >= 0.0
  {
    var means := HistMeans(categories);
    forall c | 0 <= c < |categories|
      ensures means[c] >= 0.0
    {
      assert means[c] == WindowMean(Some(categories[c].1), 6);
    }
    SumNonNegative(means);
  }

  function FlatLength(categories: seq<(string, seq<real>)>): nat
  {
    if |categories| == 0 then 0 else FlatLength(categories[..|categories| - 1]) + |categories[|categories| - 1].1|
  }

  /** `allTotals`: for each index of the first category, the sum over all
      categories of their value there (0 where a category is shorter). */
  function AllTotals(categories: seq<(string, seq<real>)>): (t: seq<real>)
  {
    if |categories| == 0 then []
    else seq(|categories[0].1|, i requires 0 <= i < |categories[0].1| => ValueSum(categories, i))
  }

  function ValueSum(categories: seq<(string, seq<real>)>, i: nat): real
  {
    if |categories| == 0 then 0.0
    else
      var s := categories[|categories| - 1].1;
      ValueSum(categories[..|categories| - 1], i) + (if i < |s| then s[i] else 0.0)
  }

  /** `totalVariance`: the spread of the historical totals with more than
      twelve values, 20 % of the historical total otherwise. */
  function TotalVariance(categories: seq<(string, seq<real>)>, env: Env): real
  {
    var hist := HistTotalAvg(categories);
    if FlatLength(categories) > 12 then
      var all := AllTotals(categories);
      if |all| > 1 then env.sqrt(Sum(SquaredDeviations(all, hist)) / |all| as real) else 0.0
    else hist * 0.2
  }

  /** `currentTotalAvg`. */
  function CurrentTotalAvg(total: seq<JsNum>): JsNum
  {
    if |total| > 0 then JsDivide(JsSum(total), |total| as real) else Finite(0.0)
  }

  /** `maxAcceptableTotal / currentTotalAvg` when the backstop fires: an
      infinite average scales by 0. */
  function OverallScaling(maxAcceptable: real, current: JsNum): real
  {
    if current.Finite? && current.r != 0.0 then maxAcceptable / current.r else 0.0
  }

  /** With a non-negative spread, the backstop's factor is below 1, and
      positive unless the current average is infinite. */
  lemma BackstopFactor(hist: real, variance: real, current: JsNum)
    requires hist > 0.0 && variance >= 0.0
    requires JsGreater(current, hist + variance * 1.5)
    ensures 0.0 <= OverallScaling(hist + variance * 1.5, current) < 1.0
    ensures current.Finite? ==> OverallScaling(hist + variance * 1.5, current) > 0.0
  {
    var m := hist + variance * 1.5;
    if current.Finite? {
      DivCompare(m, current.r, 1.0);
      DivCompare(m, current.r, 0.0);
    }
  }

  /** Sanitised history has a non-negative spread. */
  lemma TotalVarianceNonNegative(categories: seq<(string, seq<real>)>, env: Env)
    requires forall c :: 0 <= c < |categories| ==> forall i :: 0 <= i < |categories[c].1| ==> categories[c].1[i] >= 0.0
    ensures TotalVariance(categories, env) >= 0.0
  {
    HistTotalAvgNonNegative(categories);
  }

  /** On sanitised history, a backstop that fires scales by a factor in
      [0, 1), positive unless the current average is infinite. */
  lemma BackstopScalesDown(total: seq<JsNum>, categories: seq<(string, seq<real>)>, env: Env)
    requires forall c :: 0 <= c < |categories| ==> forall i :: 0 <= i < |categories[c].1| ==> categories[c].1[i] >= 0.0
    requires Fires(total, categories, env)
    ensures 0.0 <= OverallScaling(MaxAcceptable(categories, env), CurrentTotalAvg(total)) < 1.0
    ensures CurrentTotalAvg(total).Finite? ==> OverallScaling(MaxAcceptable(categories, env), CurrentTotalAvg(total)) > 0.0
  {
    var hist, variance := HistTotalAvg(categories), TotalVariance(categories, env);
    TotalVarianceNonNegative(categories, env);
    assert MaxAcceptable(categories, env) == hist + variance * 1.5;
    BackstopFactor(hist, variance, CurrentTotalAvg(total));
  }

  /** `Math.round(v * overallScaling)`. */
  function Rescale(v: JsNum, s: real): JsNum
  {
    JsRound(JsScale(v, s))
  }

  function RescaleAll(xs: seq<JsNum>, s: real): (r: seq<JsNum>)
    ensures |r| == |xs| && forall i :: 0 <= i < |xs| ==> r[i] == Rescale(xs[i], s)
  {
    seq(|xs|, i requires 0 <= i < |xs| => Rescale(xs[i], s))
  }

  function RescaleTable(t: seq<(string, seq<JsNum>)>, s: real): (r: seq<(string, seq<JsNum>)>)
    ensures |r| == |t| && forall c :: 0 <= c < |t| ==> r[c] == (t[c].0, RescaleAll(t[c].1, s))
  {
    seq(|t|, c requires 0 <= c < |t| => (t[c].0, RescaleAll(t[c].1, s)))
  }

  /** A factor in [0, 1) never increases a non-negative integer and keeps it
      a non-negative integer. */
  lemma BackstopNeverIncreases(v: JsNum, s: real)
    requires 0.0 <= s < 1.0
    requires v.Finite? && v.r >= 0.0 && v.r == v.r.Floor as real
    ensures Rescale(v, s).Finite? && 0.0 <= Rescale(v, s).r <= v.r
    ensures Rescale(v, s).r == Rescale(v, s).r.Floor as real
  {
    var x := v.r * s;
    if v.r > 0.0 {
      SignOfProduct(1.0 - s, v.r);
      SignOfProduct(s, v.r);
    }
    assert 0.0 <= x <= v.r;
    assert JsScale(v, s) == Finite(x);
    assert Rescale(v, s) == Finite(Round(x) as real);
    RoundMonotone(x, v.r);
    RoundMonotone(0.0, x);
    RoundOfInt(v.r.Floor);
    RoundOfInt(0);
  }

  /** Rounding the categories and the total separately breaks their sum:
      three categories of 1 halved stay 1 each (3 in all), while the total
      3 halved rounds to 2. */
  lemma BackstopBreaksSum()
    ensures var ones := [Finite(1.0)];
      var t := RescaleTable([("a", ones), ("b", ones), ("c", ones)], 0.5);
      t[0].1[0] == Finite(1.0) && t[1].1[0] == Finite(1.0) && t[2].1[0] == Finite(1.0)
      && RescaleAll([Finite(3.0)], 0.5) == [Finite(2.0)]
  {
  }

  /** The backstop: when the current average exceeds the historical total
      plus 1.5 spreads (with some history), every value is rescaled. */
  function Backstop(clean: seq<(string, seq<JsNum>)>, total: seq<JsNum>, categories: seq<(string, seq<real>)>, env: Env)
    : (r: (seq<(string, seq<JsNum>)>, seq<JsNum>))
    ensures |r.0| == |clean| && |r.1| == |total|
    ensures !Fires(total, categories, env) ==> r == (clean, total)
    ensures Fires(total, categories, env) ==>
      r == (RescaleTable(clean, OverallScaling(MaxAcceptable(categories, env), CurrentTotalAvg(total))),
            RescaleAll(total, OverallScaling(MaxAcceptable(categories, env), CurrentTotalAvg(total))))
  {
    if Fires(total, categories, env) then
      var s := OverallScaling(MaxAcceptable(categories, env), CurrentTotalAvg(total));
      (RescaleTable(clean, s), RescaleAll(total, s))
    else (clean, total)
  }

  function MaxAcceptable(categories: seq<(string, seq<real>)>, env: Env): real
  {
    HistTotalAvg(categories) + TotalVariance(categories, env) * 1.5
  }

  predicate Fires(total: seq<JsNum>, categories: seq<(string, seq<real>)>, env: Env)
  {
    JsGreater(CurrentTotalAvg(total), MaxAcceptable(categories, env)) && HistTotalAvg(categories) > 0.0
  }

  /** `cleanTotal`: the recomputed total, or else the response's own total
      with every entry made a non-negative integer. */
  function CleanTotal(recomputed: seq<JsNum>, response: JsValue, host: Host): (t: seq<JsNum>)
    ensures |recomputed| > 0 ==> t == recomputed
    ensures |recomputed| == 0 ==> forall i :: 0 <= i < |t| ==>
      t[i] == PosInf || (t[i].Finite? && t[i].r >= 0.0 && t[i].r == t[i].r.Floor as real)
  {
    if |recomputed| > 0 then recomputed
    else
      var rt := Get(response, "total");
      if rt.Arr? then
        seq(|rt.items|, i requires 0 <= i < |rt.items| => JsMax0(JsRound(OrZero(ToNumber(rt.items[i], host)))))
      else []
  }

  // ---------------------------------------------------------------- forecast

  /** A fallback answers: no base URL, a throw (a null body throws on
      `response.categories`), or an error field in the answer. */
  predicate FallbackPath(configured: bool, reply: Reply)
  {
    !configured || reply.Threw? || Nullish(reply.body) || Truthy(Get(reply.body, "error"))
  }

  /** The result of the model path as a function of the answer. */
  function ModelResult(body: JsValue, categories: seq<(string, seq<real>)>, env: Env, host: Host): (r: ForecastResult)
    ensures r.predictionMethod == "ml_model" && r.confidence == None
  {
    var cats := ObjectEntries(if Truthy(Get(body, "categories")) then Get(body, "categories") else Obj([]));
    var clean := CleanTable(cats, categories, env, host);
    var (c, t) := Backstop(clean, Totals(SeriesOf(clean)), categories, env);
    ForecastResult(c, CleanTotal(t, body, host), "ml_model", None)
  }

  /** `forecast(data, horizon)`: `configured` says whether ML_API_BASE_URL is
      set, `reply` is what the POST produced. Every fallback allocates a
      horizon-sized array, so a horizon too long for one rejects with a
      RangeError there (on the error-field path the throw is caught only to
      call the fallback again, which throws again); the model path
      allocates nothing of that size. */
  method Forecast(data: JsValue, horizon: JsNum, configured: bool, reply: Reply, env: Env, host: Host)
    returns (r: Result<ForecastResult, ServiceError>)
    ensures !ValidHorizon(horizon) ==> r == Err(ApiFailure(InvalidHorizon))
    ensures ValidHorizon(horizon) && horizon.r > MaxArrayLength as real && FallbackPath(configured, reply) ==> r == Err(RangeError)
    ensures ValidHorizon(horizon) && (horizon.r <= MaxArrayLength as real || !FallbackPath(configured, reply)) ==> r.Ok?
    ensures ValidHorizon(horizon) && horizon.r <= MaxArrayLength as real && !configured ==>
      r.value == FallbackResult(NoApiCategories(data, host), horizon.r.Floor, DefaultParams, env, "statistical_no_api", None)
    ensures ValidHorizon(horizon) && horizon.r <= MaxArrayLength as real && configured && (reply.Threw? || Nullish(reply.body)) ==>
      r.value == FallbackResult(ApiCategories(data, host), horizon.r.Floor, DefaultParams, env, "statistical_network_error", None)
    ensures (ValidHorizon(horizon) && horizon.r <= MaxArrayLength as real && configured && reply.Replied? && !Nullish(reply.body)
             && Truthy(Get(reply.body, "error"))) ==>
      r.value == FallbackResult(ApiCategories(data, host), horizon.r.Floor, DefaultParams, env, "statistical_ml_error", None)
    ensures ValidHorizon(horizon) && !FallbackPath(configured, reply) ==>
      r.value == ModelResult(reply.body, ApiCategories(data, host), env, host)
  {
    if !ValidHorizon(horizon) {
      return Err(ApiFailure(InvalidHorizon));
    }
    var h: nat := horizon.r.Floor;
    assert h > MaxArrayLength <==> horizon.r > MaxArrayLength as real;
    if !configured {
      var f := FallbackMean(NoApiCategories(data, host), h, env);
      if f.Err? {
        return Err(f.error);
      }
      return Ok(f.value.(predictionMethod := "statistical_no_api"));
    }
    var categories := ApiCategories(data, host);
    if reply.Threw? || Nullish(reply.body) {
      var f := FallbackMean(categories, h, env);
      if f.Err? {
        return Err(f.error);
      }
      return Ok(f.value.(predictionMethod := "statistical_network_error"));
    }
    var body := reply.body;
    if Truthy(Get(body, "error")) {
      var f := FallbackMean(categories, h, env);
      if f.Err? {
        return Err(f.error);
      }
      return Ok(f.value.(predictionMethod := "statistical_ml_error"));
    }
    var cats := ObjectEntries(if Truthy(Get(body, "categories")) then Get(body, "categories") else Obj([]));
    var clean, total := Reconcile(cats, categories, env, host);
    var (c, t) := Backstop(clean, total, categories, env);
    return Ok(ForecastResult(c, CleanTotal(t, body, host), "ml_model", None));
  }
}
