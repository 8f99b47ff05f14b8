/** The forecasting service's prediction route (mlModel/ml_api.py): the
    feature row built from the history for each step, and the loop that
    feeds each prediction back into the history for `horizon` steps.

    The trained model, numpy's log1p/expm1 and the sine and cosine are the
    runtime's (`Runtime`); values are exact reals. */
module MlApi {
  import opened Numeric
  import opened Outcomes

  /** What the service takes as given: `model.predict` on one feature row
      (an error stands for an exception it raises, with its message),
      `np.log1p`, `np.expm1`, and x -> sin(2πx), x -> cos(2πx). */
  datatype Runtime = Runtime(
    predict: Features -> Result<real, string>,
    log1p: real -> real,
    expm1: real -> real,
    sinTurn: real -> real,
    cosTurn: real -> real)

  /** One feature row, in the model's column order. `categoryRatio` is None
      where its denominator is 0 and numpy yields inf or nan. */
  datatype Features = Features(
    lag1: real, lag2: real, lag3: real, lag12: real,
    rolling3: real, rolling6: real, rolling12: real,
    trend3: real, pctChange: real, monthTotal: real,
    categoryRatio: Option<real>, monthNum: int, monthSin: real, monthCos: real)

  /** `ts[-k]` when the history is longer than k - 1 values, else `ts[-1]`. */
  function Lag(ts: seq<real>, k: nat): (v: real)
    requires |ts| > 0 && k > 0
    ensures |ts| >= k ==> v == ts[|ts| - k]
    ensures |ts| < k ==> v == ts[|ts| - 1]
  {
    if |ts| > k - 1 then ts[|ts| - k] else ts[|ts| - 1]
  }

  /** `ts[-k:]`: the last k values, or all of them. */
  function Tail(ts: seq<real>, k: nat): (t: seq<real>)
    ensures |t| == if |ts| < k then |ts| else k
    ensures t == ts[|ts| - |t|..]
  {
    if |ts| < k then ts else ts[|ts| - k..]
  }

  const Epsilon: real := 0.000000001

  /** create_features: lags 1, 2, 3 and 12, rolling means over 3, 6 and 12
      values (each falling back to the shorter one on a short history), the
      3-step trend, the last change relative to the value before, the sum
      of the last three values, the last value's share of that sum, and the
      month number with its position on the unit circle. */
  function CreateFeatures(ts: seq<real>, monthIndex: int, rt: Runtime): (x: Features)
    requires |ts| > 0
    ensures x.lag1 == ts[|ts| - 1]
    ensures x.lag2 == Lag(ts, 2) && x.lag3 == Lag(ts, 3) && x.lag12 == Lag(ts, 12)
    ensures x.rolling3 == Mean(Tail(ts, 3))
    ensures x.rolling6 == if |ts| >= 6 then Mean(Tail(ts, 6)) else x.rolling3
    ensures x.rolling12 == if |ts| >= 12 then Mean(Tail(ts, 12)) else x.rolling6
    ensures |ts| <= 3 ==> x.trend3 == 0.0
    ensures |ts| == 1 ==> x.pctChange == 0.0 && x.lag2 == x.lag1 && x.lag3 == x.lag1 && x.lag12 == x.lag1
    ensures x.monthNum == monthIndex
  {
    var n := |ts|;
    var last := ts[n - 1];
    var rolling3 := Mean(Tail(ts, 3));
    var rolling6 := if n >= 6 then Mean(Tail(ts, 6)) else rolling3;
    var rolling12 := if n >= 12 then Mean(Tail(ts, 12)) else rolling6;
    var trend3 := if n > 3 then last - ts[n - 3] else 0.0;
    var prev := ts[n - 2 + (if n > 1 then 0 else 1)];
    var pctChange := if n > 1 then (last - prev) / ((if prev < 0.0 then -prev else prev) + Epsilon) else 0.0;
    var monthTotal := Sum(Tail(ts, 3));
    var denominator := monthTotal + Epsilon;
    Features(last, Lag(ts, 2), Lag(ts, 3), Lag(ts, 12), rolling3, rolling6, rolling12, trend3, pctChange,
      monthTotal, if denominator != 0.0 then Some(last / denominator) else None,
      monthIndex, rt.sinTurn(monthIndex as real / 12.0), rt.cosTurn(monthIndex as real / 12.0))
  }

  /** The rolling means lie between the smallest and the largest value of
      the history. */
  lemma RollingWithinRange(ts: seq<real>, monthIndex: int, rt: Runtime, lo: real, hi: real)
    requires |ts| > 0
    requires forall i :: 0 <= i < |ts| ==> lo <= ts[i] <= hi
    ensures var x := CreateFeatures(ts, monthIndex, rt);
      lo <= x.rolling3 <= hi && lo <= x.rolling6 <= hi && lo <= x.rolling12 <= hi
  {
    forall k: nat | 0 < k
      ensures lo <= Mean(Tail(ts, k)) <= hi
    {
      var t := Tail(ts, k);
      assert forall i :: 0 <= i < |t| ==> t[i] == ts[|ts| - |t| + i];
      MeanBounds(t, lo, hi);
    }
  }

  /** On a constant history every lag and rolling mean is that constant
      and the trend and the change are 0. */
  lemma ConstantHistory(ts: seq<real>, c: real, monthIndex: int, rt: Runtime)
    requires |ts| > 0
    requires forall i :: 0 <= i < |ts| ==> ts[i] == c
    ensures var x := CreateFeatures(ts, monthIndex, rt);
      x.lag1 == c && x.lag2 == c && x.lag3 == c && x.lag12 == c
      && x.rolling3 == c && x.rolling6 == c && x.rolling12 == c
      && x.trend3 == 0.0 && x.pctChange == 0.0
  {
    var x := CreateFeatures(ts, monthIndex, rt);
    RollingWithinRange(ts, monthIndex, rt, c, c);
    assert x.lag2 == c && x.lag3 == c && x.lag12 == c;
    var n := |ts|;
    if n > 1 {
      var d := (if c < 0.0 then -c else c) + Epsilon;
      assert x.pctChange == (c - c) / d;
    }
  }

  /** `(current_month + i - 1) % 12 + 1`. */
  function MonthIndex(currentMonth: int, i: nat): (m: int)
    ensures 1 <= m <= 12
  {
    (currentMonth + i - 1) % 12 + 1
  }

  /** The month index starts at the current month, follows December with
      January, and repeats every twelve steps. */
  lemma MonthCycle(currentMonth: int, i: nat)
    requires 1 <= currentMonth <= 12
    ensures MonthIndex(currentMonth, 0) == currentMonth
    ensures MonthIndex(currentMonth, i + 1) == if MonthIndex(currentMonth, i) == 12 then 1 else MonthIndex(currentMonth, i) + 1
    ensures MonthIndex(currentMonth, i + 12) == MonthIndex(currentMonth, i)
  {
    var a := currentMonth + i - 1;
    var q, r := a / 12, a % 12;
    assert a == 12 * q + r && 0 <= r < 12;
    if r == 11 {
      ModOf(a + 1, q + 1, 0);
    } else {
      ModOf(a + 1, q, r + 1);
    }
    ModOf(a + 12, q + 1, r);
  }

  /** The remainder of a number written as 12q + r with 0 <= r < 12. */
  lemma ModOf(a: int, q: int, r: int)
    requires a == 12 * q + r && 0 <= r < 12
    ensures a % 12 == r
  {
  }

  /** Python's `round(x, 2)` on the exact value: to the nearest hundredth,
      a tie to the even hundredth. */
  function Round2(x: real): (r: real)
    ensures -0.005 <= r - x <= 0.005
    ensures WholeHundredths(r)
  {
    var y := x * 100.0;
    var f := y.Floor;
    var frac := y - f as real;
    var n := if frac > 0.5 then f + 1 else if frac < 0.5 then f else if f % 2 == 0 then f else f + 1;
    n as real / 100.0
  }

  /** The first n steps of the loop from the log-space history `ts`: the
      predictions so far (rounded rupees) and the grown history, or the
      first exception. Step i feeds the history so far, with the month
      index of step i, to the model, appends its answer to the history and
      reports that answer back in rupees, rounded to the hundredth. */
  function Steps(ts: seq<real>, n: nat, currentMonth: int, rt: Runtime): (r: Result<(seq<real>, seq<real>), string>)
    requires |ts| > 0
    ensures r.Ok? ==> |r.value.0| == n && |r.value.1| == |ts| + n && r.value.1[..|ts|] == ts
    ensures r.Ok? ==> Fed(|ts|, r.value.0, r.value.1, currentMonth, rt)
    ensures r.Err? ==> n > 0
  {
    if n == 0 then Ok(([], ts))
    else
      match Steps(ts, n - 1, currentMonth, rt)
      case Err(e) => Err(e)
      case Ok((preds, history)) =>
        match rt.predict(CreateFeatures(history, MonthIndex(currentMonth, n - 1), rt))
        case Err(e) => Err(e)
        case Ok(p) =>
          assert (history + [p])[..|ts|] == history[..|ts|];
          FedExtend(|ts|, preds, history, p, currentMonth, rt);
          Ok((preds + [Round2(rt.expm1(p))], history + [p]))
  }

  /** Step i of a run: the model, given the history before it and the month
      index of step i, answers the value the history holds next. */
  predicate StepAnswered(base: nat, history: seq<real>, i: nat, currentMonth: int, rt: Runtime)
    requires 0 < base && base + i < |history|
  {
    rt.predict(CreateFeatures(history[..base + i], MonthIndex(currentMonth, i), rt)) == Ok(history[base + i])
  }

  /** Every step of a run was answered by the model, and each prediction
      reported is that answer back in rupees, rounded to the hundredth. */
  predicate Fed(base: nat, preds: seq<real>, history: seq<real>, currentMonth: int, rt: Runtime)
  {
    0 < base && |history| == base + |preds|
    && forall i :: 0 <= i < |preds| ==>
      StepAnswered(base, history, i, currentMonth, rt) && preds[i] == Round2(rt.expm1(history[base + i]))
  }

  /** One more answered step extends a run. */
  lemma FedExtend(base: nat, preds: seq<real>, history: seq<real>, p: real, currentMonth: int, rt: Runtime)
    requires Fed(base, preds, history, currentMonth, rt)
    requires rt.predict(CreateFeatures(history, MonthIndex(currentMonth, |preds|), rt)) == Ok(p)
    ensures Fed(base, preds + [Round2(rt.expm1(p))], history + [p], currentMonth, rt)
  {
    var preds', history' := preds + [Round2(rt.expm1(p))], history + [p];
    forall i | 0 <= i < |preds'|
      ensures StepAnswered(base, history', i, currentMonth, rt) && preds'[i] == Round2(rt.expm1(history'[base + i]))
    {
      if i < |preds| {
        assert history'[..base + i] == history[..base + i];
        assert StepAnswered(base, history, i, currentMonth, rt);
      } else {
        assert history'[..base + i] == history;
      }
    }
  }

  /** x has at most two decimals. */
  predicate WholeHundredths(x: real)
  {
    (x * 100.0).Floor as real == x * 100.0
  }

  /** Every prediction of a run is a whole number of hundredths. */
  lemma FedHundredths(base: nat, preds: seq<real>, history: seq<real>, currentMonth: int, rt: Runtime)
    requires Fed(base, preds, history, currentMonth, rt)
    ensures forall i :: 0 <= i < |preds| ==> WholeHundredths(preds[i])
  {
    forall i | 0 <= i < |preds|
      ensures WholeHundredths(preds[i])
    {
      assert preds[i] == Round2(rt.expm1(history[base + i]));
    }
  }

  /** The route's response body. */
  datatype Response = Response(error: Option<string>, predictedExpenseRupees: seq<real>)

  function Zeros(horizon: int): (z: seq<real>)
    ensures |z| == (if horizon < 0 then 0 else horizon) && forall i :: 0 <= i < |z| ==> z[i] == 0.0
  {
    Repeat(0.0, if horizon < 0 then 0 else horizon)
  }

  function LogSeries(timeseries: seq<real>, rt: Runtime): (ts: seq<real>)
    ensures |ts| == |timeseries| && forall i :: 0 <= i < |ts| ==> ts[i] == rt.log1p(timeseries[i])
  {
    seq(|timeseries|, i requires 0 <= i < |timeseries| => rt.log1p(timeseries[i]))
  }

  /** What the route answers, as a function of its inputs. */
  function ForecastResponse(timeseries: seq<real>, horizon: int, currentMonth: int, rt: Runtime): (resp: Response)
    ensures |resp.predictedExpenseRupees| == if horizon < 0 then 0 else horizon
    ensures |timeseries| == 0 ==> resp == Response(None, Zeros(horizon))
    ensures resp.error.Some? ==> resp.predictedExpenseRupees == Zeros(horizon)
    ensures |timeseries| > 0 ==>
      var run := Steps(LogSeries(timeseries, rt), if horizon < 0 then 0 else horizon, currentMonth, rt);
      (resp.error.None? <==> run.Ok?)
      && (run.Err? ==> resp.error == Some(run.error))
      && (run.Ok? ==> resp.predictedExpenseRupees == run.value.0
                      && Fed(|timeseries|, resp.predictedExpenseRupees, run.value.1, currentMonth, rt)
                      && run.value.1[..|timeseries|] == LogSeries(timeseries, rt))
    ensures forall i :: 0 <= i < |resp.predictedExpenseRupees| ==> WholeHundredths(resp.predictedExpenseRupees[i])
  {
    if |timeseries| == 0 then
      assert WholeHundredths(0.0);
      Response(None, Zeros(horizon))
    else
      var run := Steps(LogSeries(timeseries, rt), if horizon < 0 then 0 else horizon, currentMonth, rt);
      if run.Err? then
        assert WholeHundredths(0.0);
        Response(Some(run.error), Zeros(horizon))
      else
        FedHundredths(|timeseries|, run.value.0, run.value.1, currentMonth, rt);
        Response(None, run.value.0)
  }

  /** An empty history never reaches the model: the answer is the same
      whatever the runtime does. */
  lemma EmptyIgnoresModel(horizon: int, currentMonth: int, rt1: Runtime, rt2: Runtime)
    ensures ForecastResponse([], horizon, currentMonth, rt1) == ForecastResponse([], horizon, currentMonth, rt2)
  {
  }

  /** forecast_timeseries: the loop over the horizon. */
  method Forecast(timeseries: seq<real>, horizon: int, currentMonth: int, rt: Runtime) returns (resp: Response)
    ensures resp == ForecastResponse(timeseries, horizon, currentMonth, rt)
  {
    if |timeseries| == 0 {
      return Response(None, Zeros(horizon));
    }
    var tsLog := LogSeries(timeseries, rt);
    var preds: seq<real> := [];
    var history := tsLog;
    var steps := if horizon < 0 then 0 else horizon;
    for i := 0 to steps
      invariant Steps(tsLog, i, currentMonth, rt) == Ok((preds, history))
    {
      var p := rt.predict(CreateFeatures(history, MonthIndex(currentMonth, i), rt));
      if p.Err? {
        assert Steps(tsLog, i + 1, currentMonth, rt) == Err(p.error);
        StepsFail(tsLog, i + 1, steps, currentMonth, rt);
        return Response(Some(p.error), Zeros(horizon));
      }
      history := history + [p.value];
      preds := preds + [Round2(rt.expm1(p.value))];
    }
    resp := Response(None, preds);
  }

  /** Once a step raises, every longer run fails with the same message. */
  lemma {:induction false} StepsFail(ts: seq<real>, k: nat, n: nat, currentMonth: int, rt: Runtime)
    requires |ts| > 0 && k <= n
    requires Steps(ts, k, currentMonth, rt).Err?
    ensures Steps(ts, n, currentMonth, rt) == Steps(ts, k, currentMonth, rt)
    decreases n - k
  {
    if k < n {
      StepsFail(ts, k + 1, n, currentMonth, rt);
    }
  }
}
