/** The simple forecast service (backend/src/mlServices/mlService.js): one
    series in, exactly `horizon` predictions out, from the model service
    when it answers with predictions and from a repeated mean otherwise. */
module MlService {
  import opened Numeric
  import opened Sequences
  import opened Outcomes
  import opened JsValues
  import opened ForecastApi

  /** `timeseries.map(Number)`. */
  function Numbers(items: seq<JsValue>, host: Host): (r: seq<JsNum>)
    ensures |r| == |items| && forall i :: 0 <= i < |items| ==> r[i] == ToNumber(items[i], host)
  {
    seq(|items|, i requires 0 <= i < |items| => ToNumber(items[i], host))
  }

  /** `sanitizeTimeseries`: [] for a non-array; otherwise exactly the
      finite, non-negative numbers, in their original order. */
  function SanitizeTimeseries(timeseries: JsValue, host: Host): (ts: seq<real>)
    ensures !timeseries.Arr? ==> ts == []
    ensures forall i :: 0 <= i < |ts| ==> ts[i] >= 0.0
    ensures timeseries.Arr? ==> Nums(ts) == Filter(Numbers(timeseries.items, host), Usable)
    ensures timeseries.Arr? ==> IsSubsequence(Nums(ts), Numbers(timeseries.items, host))
    ensures timeseries.Arr? ==> forall n :: n in Numbers(timeseries.items, host) && Usable(n) <==> n in Nums(ts)
  {
    if !timeseries.Arr? then []
    else
      var kept := Filter(Numbers(timeseries.items, host), Usable);
      var ts := Reals(kept);
      assert Nums(ts) == kept;
      ts
  }

  /** The finite numbers of a series, in order. */
  function FiniteValues(xs: seq<JsNum>): (r: seq<real>)
    ensures Nums(r) == Filter(xs, IsFinite)
  {
    var kept := Filter(xs, IsFinite);
    var r := Reals(kept);
    assert Nums(r) == kept;
    r
  }

  /** `fallbackMean`: `horizon` copies of the rounded mean of the finite
      numbers (0 without any), unless `Array.from` refuses the length. */
  function FallbackMean(numbers: seq<JsNum>, horizon: nat): (r: Result<seq<int>, ServiceError>)
    ensures horizon > MaxArrayLength <==> r == Err(RangeError)
    ensures r.Ok? ==> |r.value| == horizon
    ensures r.Ok? ==> forall i :: 0 <= i < horizon ==> r.value[i] == Round(Mean(FiniteValues(numbers)))
  {
    if horizon > MaxArrayLength then Err(RangeError)
    else Ok(Repeat(Round(Mean(FiniteValues(numbers))), horizon))
  }

  /** Without a finite number the fallback is all zeros. */
  lemma FallbackWithoutNumbers(numbers: seq<JsNum>, horizon: nat)
    requires forall i :: 0 <= i < |numbers| ==> !numbers[i].Finite?
    requires horizon <= MaxArrayLength
    ensures FallbackMean(numbers, horizon) == Ok(Repeat(0, horizon))
  {
    assert |Nums(FiniteValues(numbers))| == 0;
  }

  /** On a sanitised series the fallback repeats the rounded mean of the
      series itself, which lies between the rounded least and greatest
      values. */
  lemma FallbackOfClean(ts: seq<real>, horizon: nat, lo: real, hi: real)
    requires forall i :: 0 <= i < |ts| ==> lo <= ts[i] <= hi
    requires horizon <= MaxArrayLength
    ensures forall i :: 0 <= i < horizon ==> FallbackMean(Nums(ts), horizon).value[i] == Round(Mean(ts))
    ensures |ts| > 0 ==> forall i :: 0 <= i < horizon ==> Round(lo) <= FallbackMean(Nums(ts), horizon).value[i] <= Round(hi)
  {
    FilterKeepsAll(Nums(ts), IsFinite);
    NumsInjective(FiniteValues(Nums(ts)), ts);
    if |ts| > 0 {
      MeanBounds(ts, lo, hi);
      RoundMonotone(lo, Mean(ts));
      RoundMonotone(Mean(ts), hi);
    }
  }

  lemma NumsInjective(a: seq<real>, b: seq<real>)
    requires Nums(a) == Nums(b)
    ensures a == b
  {
    assert |a| == |Nums(a)|;
    forall i | 0 <= i < |a|
      ensures a[i] == b[i]
    {
      assert Nums(a)[i] == Nums(b)[i];
    }
  }

  /** `raw[i] ?? raw[raw.length - 1] ?? 0` for a non-empty `raw`. */
  function PickValue(raw: seq<JsValue>, i: nat): (v: JsValue)
    requires |raw| > 0
    ensures i < |raw| && !Nullish(raw[i]) ==> v == raw[i]
    ensures !(i < |raw| && !Nullish(raw[i])) && !Nullish(raw[|raw| - 1]) ==> v == raw[|raw| - 1]
    ensures !(i < |raw| && !Nullish(raw[i])) && Nullish(raw[|raw| - 1]) ==> v == Num(Finite(0.0))
  {
    if i < |raw| && !Nullish(raw[i]) then raw[i]
    else if !Nullish(raw[|raw| - 1]) then raw[|raw| - 1]
    else Num(Finite(0.0))
  }

  /** `Math.max(0, Math.round(Number(val) || 0))`: a non-negative integer,
      or +Infinity for a value that reads as +Infinity, and 0 for one that
      is not a number. */
  function NormaliseValue(v: JsValue, host: Host): (p: JsNum)
    ensures p == PosInf || (p.Finite? && p.r >= 0.0 && p.r == p.r.Floor as real)
    ensures ToNumber(v, host) == NaN ==> p == Finite(0.0)
    ensures ToNumber(v, host).Finite? && ToNumber(v, host).r >= 0.0 ==> p == Finite(Round(ToNumber(v, host).r) as real)
  {
    RoundedCount(ToNumber(v, host))
  }

  /** `Math.max(0, Math.round(n || 0))` on the number already read. */
  function RoundedCount(n: JsNum): (p: JsNum)
    ensures p == PosInf || (p.Finite? && p.r >= 0.0 && p.r == p.r.Floor as real)
    ensures n == NaN ==> p == Finite(0.0)
    ensures n.Finite? && n.r >= 0.0 ==> p == Finite(Round(n.r) as real)
  {
    JsMax0(JsRound(OrZero(n)))
  }

  /** The normalised predictions: exactly `horizon` of them, where index i
      reads `raw[i]` when present and the last raw value otherwise, unless
      `Array.from` refuses the length. */
  function Normalise(raw: seq<JsValue>, horizon: nat, host: Host): (r: Result<seq<JsNum>, ServiceError>)
    requires |raw| > 0
    ensures horizon > MaxArrayLength <==> r == Err(RangeError)
    ensures r.Ok? ==> |r.value| == horizon
    ensures r.Ok? ==> forall i :: 0 <= i < horizon ==> r.value[i] == NormaliseValue(PickValue(raw, i), host)
  {
    if horizon > MaxArrayLength then Err(RangeError)
    else Ok(seq(horizon, i requires 0 <= i < horizon => NormaliseValue(PickValue(raw, i), host)))
  }

  /** An answer of exactly `horizon` non-negative integers passes unchanged. */
  lemma NormaliseExact(ps: seq<nat>, horizon: nat, host: Host)
    requires |ps| == horizon > 0 && horizon <= MaxArrayLength
    ensures Normalise(seq(horizon, i requires 0 <= i < horizon => Num(Finite(ps[i] as real))), horizon, host)
      == Ok(seq(horizon, i requires 0 <= i < horizon => Finite(ps[i] as real)))
  {
    var raw := seq(horizon, i requires 0 <= i < horizon => Num(Finite(ps[i] as real)));
    var expected := seq(horizon, i requires 0 <= i < horizon => Finite(ps[i] as real));
    var r := Normalise(raw, horizon, host);
    assert r.Ok?;
    forall i | 0 <= i < horizon
      ensures r.value[i] == expected[i]
    {
      RoundOfInt(ps[i]);
    }
    assert r.value == expected;
  }

  /** A short answer is padded with its last value. */
  lemma NormalisePads(raw: seq<JsValue>, horizon: nat, host: Host, i: nat)
    requires 0 < |raw| <= i < horizon <= MaxArrayLength
    ensures Normalise(raw, horizon, host).value[i] == Normalise(raw, horizon, host).value[|raw| - 1]
  {
  }

  /** The predictions in the response, when it holds a non-empty array. */
  function RawPredictions(data: JsValue): (raw: Option<seq<JsValue>>)
    ensures raw.Some? <==> Get(data, "predicted_expense_rupees").Arr? && |Get(data, "predicted_expense_rupees").items| > 0
    ensures raw.Some? ==> raw.value == Get(data, "predicted_expense_rupees").items
  {
    var p := Get(data, "predicted_expense_rupees");
    if p.Arr? && |p.items| > 0 then Some(p.items) else None
  }

  /** `forecast(timeseries, horizonDates)`, where `configured` says whether
      ML_API_BASE_URL is set and `reply` is what the POST produced. A
      horizon too long for an array rejects on every path: the fallback
      throws, and on the model path the throw of `Array.from` is caught
      only to call the fallback, which throws again. */
  function Forecast(timeseries: JsValue, horizon: JsNum, configured: bool, reply: Reply, host: Host): (r: Result<seq<JsNum>, ServiceError>)
    ensures !ValidHorizon(horizon) ==> r == Err(ApiFailure(InvalidHorizon))
    ensures ValidHorizon(horizon) && horizon.r > MaxArrayLength as real ==> r == Err(RangeError)
    ensures ValidHorizon(horizon) && horizon.r <= MaxArrayLength as real ==> r.Ok? && |r.value| == horizon.r.Floor
    ensures r.Ok? ==> forall i :: 0 <= i < |r.value| ==>
      r.value[i] == PosInf || (r.value[i].Finite? && r.value[i].r >= 0.0 && r.value[i].r == r.value[i].r.Floor as real)
    ensures r.Ok? && UsesFallback(configured, reply) ==>
      r.value == Ints(FallbackMean(Nums(SanitizeTimeseries(timeseries, host)), horizon.r.Floor).value)
    ensures r.Ok? && !UsesFallback(configured, reply) ==>
      r.value == Normalise(RawPredictions(reply.body).value, horizon.r.Floor, host).value
  {
    if !ValidHorizon(horizon) then Err(ApiFailure(InvalidHorizon))
    else
      var h: nat := horizon.r.Floor;
      var ts := SanitizeTimeseries(timeseries, host);
      var fallback := FallbackMean(Nums(ts), h);
      if fallback.Err? then Err(RangeError)
      else if UsesFallback(configured, reply) then
        MeanNonNegative(FiniteValues(Nums(ts)));
        RoundMonotone(0.0, Mean(FiniteValues(Nums(ts))));
        Ok(Ints(fallback.value))
      else
        var preds := Normalise(RawPredictions(reply.body).value, h, host);
        if preds.Err? then Err(RangeError) else Ok(preds.value)
  }

  /** The fallback is used without a base URL, after a throw, on an error
      field, and when the answer holds no non-empty predictions array. */
  predicate UsesFallback(configured: bool, reply: Reply)
  {
    !configured || reply.Threw? || Truthy(Get(reply.body, "error")) || RawPredictions(reply.body).None?
  }

  /** Every fallback case yields exactly the repeated mean of the
      sanitised series, regardless of what the model service said. */
  lemma FallbackCases(timeseries: JsValue, horizon: JsNum, reply: Reply, host: Host)
    requires ValidHorizon(horizon) && horizon.r <= MaxArrayLength as real
    ensures var expected := Ok(Ints(FallbackMean(Nums(SanitizeTimeseries(timeseries, host)), horizon.r.Floor).value));
      Forecast(timeseries, horizon, false, reply, host) == expected
      && Forecast(timeseries, horizon, true, Threw, host) == expected
      && (reply.Replied? && Truthy(Get(reply.body, "error")) ==> Forecast(timeseries, horizon, true, reply, host) == expected)
      && (reply.Replied? && RawPredictions(reply.body).None? ==> Forecast(timeseries, horizon, true, reply, host) == expected)
  {
  }
}
