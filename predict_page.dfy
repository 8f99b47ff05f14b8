/** The prediction page's handling of the forecast response
    (frontend/src/pages/Predict.jsx): `total_prediction` is normalised to a
    list of values, the chart labels them T+1, T+2, ..., and the headline
    total sums them. */
module PredictPage {
  import opened Numeric
  import opened Sequences
  import opened Text
  import opened Outcomes
  import opened JsValues

  /** `Object.keys(tp)`. */
  function ObjectKeys(entries: seq<(string, JsValue)>): (ks: seq<string>)
    ensures NoDuplicates(ks)
    ensures forall k :: k in ks <==> HasKey(entries, k)
  {
    var ns := Firsts(entries);
    assert forall k :: k in ns <==> HasKey(entries, k) by {
      forall k ensures k in ns <==> HasKey(entries, k)
      {
        if k in ns {
          var i :| 0 <= i < |ns| && ns[i] == k;
          assert entries[i].0 == k;
        }
        if HasKey(entries, k) {
          var i :| 0 <= i < |entries| && entries[i].0 == k;
          assert ns[i] == k;
        }
      }
    }
    Dedup(ns)
  }

  /** `keys.map(k => tp[k])`. */
  function ValuesAt(tp: JsValue, keys: seq<string>): (vs: seq<JsValue>)
    ensures |vs| == |keys| && forall i :: 0 <= i < |keys| ==> vs[i] == Get(tp, keys[i])
  {
    seq(|keys|, i requires 0 <= i < |keys| => Get(tp, keys[i]))
  }

  /** A key that `Date.parse` or `Number` reads as a number. */
  predicate NumericKey(k: string, host: Host)
  {
    host.dateParse(k).Some? || StringToNumber(k, host) != NaN
  }

  /** The keys' comparator is negative when both keys are dates and the
      first is earlier ... */
  predicate DateKeyLess(host: Host, a: string, b: string)
  {
    var da, db := host.dateParse(a), host.dateParse(b);
    da.Some? && db.Some? && da.value < db.value
  }

  /** ... and otherwise when the first key is the smaller number (`Number(k)
      || 0`). */
  predicate NumberKeyLess(host: Host, a: string, b: string)
  {
    NumLess(OrZero(StringToNumber(a, host)), OrZero(StringToNumber(b, host)))
  }

  /** The comparator of the source, read as "compares below zero". */
  predicate KeyLess(host: Host, a: string, b: string)
  {
    if host.dateParse(a).Some? && host.dateParse(b).Some? then DateKeyLess(host, a, b)
    else NumberKeyLess(host, a, b)
  }

  function KeyOrder(host: Host): (string, string) -> bool
  {
    (a, b) => KeyLess(host, a, b)
  }

  function DateOrder(host: Host): (string, string) -> bool
  {
    (a, b) => DateKeyLess(host, a, b)
  }

  function NumberOrder(host: Host): (string, string) -> bool
  {
    (a, b) => NumberKeyLess(host, a, b)
  }

  /** The keys as the numeric branch orders them. */
  function OrderedKeys(entries: seq<(string, JsValue)>, host: Host): (ks: seq<string>)
    ensures multiset(ks) == multiset(ObjectKeys(entries))
    ensures forall k :: k in ks <==> k in ObjectKeys(entries)
    ensures NoDuplicates(ks)
  {
    var ks := SortBy(ObjectKeys(entries), KeyOrder(host));
    MultisetNoDuplicates(ObjectKeys(entries), ks);
    assert forall k :: k in ks <==> k in multiset(ObjectKeys(entries));
    ks
  }

  predicate AllNumericKeys(entries: seq<(string, JsValue)>, host: Host)
  {
    forall k :: k in ObjectKeys(entries) ==> NumericKey(k, host)
  }

  /** normalizeTotalPrediction: an array is kept, a number is wrapped, an
      object gives its values (ordered by key when every key reads as a
      number or a date), and anything else gives the empty list. */
  function Normalize(tp: JsValue, host: Host): (r: seq<JsValue>)
    ensures tp.Arr? ==> r == tp.items
    ensures tp.Num? ==> r == [tp]
    ensures !tp.Arr? && !tp.Num? && !tp.Obj? ==> r == []
    ensures tp.Obj? ==> |r| == |ObjectKeys(tp.entries)|
    ensures tp.Obj? && AllNumericKeys(tp.entries, host) ==> r == ValuesAt(tp, OrderedKeys(tp.entries, host))
    ensures tp.Obj? && !AllNumericKeys(tp.entries, host) ==> r == ValuesAt(tp, ObjectKeys(tp.entries))
  {
    match tp
    case Arr(items) => items
    case Num(_) => [tp]
    case Obj(entries) =>
      if AllNumericKeys(entries, host) then ValuesAt(tp, OrderedKeys(entries, host))
      else ValuesAt(tp, ObjectKeys(entries))
    case _ => []
  }

  /** Each value an object yields is the value of one of its keys, and each
      key's value is yielded. */
  lemma NormalizeObjectValues(tp: JsValue, host: Host)
    requires tp.Obj?
    ensures forall v :: v in Normalize(tp, host) <==> exists k :: HasKey(tp.entries, k) && v == Get(tp, k)
  {
    var ks := if AllNumericKeys(tp.entries, host) then OrderedKeys(tp.entries, host) else ObjectKeys(tp.entries);
    assert forall k :: k in ks <==> HasKey(tp.entries, k);
    assert Normalize(tp, host) == ValuesAt(tp, ks);
    ValuesAtKeys(tp, ks);
  }

  /** The values read at a list of exactly the object's keys are exactly the
      object's values. */
  lemma ValuesAtKeys(tp: JsValue, ks: seq<string>)
    requires tp.Obj?
    requires forall k :: k in ks <==> HasKey(tp.entries, k)
    ensures forall v :: v in ValuesAt(tp, ks) <==> exists k :: HasKey(tp.entries, k) && v == Get(tp, k)
  {
    var r := ValuesAt(tp, ks);
    forall v ensures v in r <==> exists k :: HasKey(tp.entries, k) && v == Get(tp, k)
    {
      if v in r {
        var i :| 0 <= i < |r| && r[i] == v;
        assert HasKey(tp.entries, ks[i]);
      }
      if exists k :: HasKey(tp.entries, k) && v == Get(tp, k) {
        var k :| HasKey(tp.entries, k) && v == Get(tp, k);
        var i :| 0 <= i < |ks| && ks[i] == k;
        assert r[i] == v;
      }
    }
  }

  lemma DateOrderStrict(host: Host)
    ensures StrictOrder(DateOrder(host))
  {
  }

  lemma NumberOrderStrict(host: Host)
    ensures StrictOrder(NumberOrder(host))
  {
    forall a: string, b: string, c: string
      ensures !NumberKeyLess(host, a, a)
      ensures NumberKeyLess(host, a, b) && NumberKeyLess(host, b, c) ==> NumberKeyLess(host, a, c)
    {
      NumLessStrict(OrZero(StringToNumber(a, host)), OrZero(StringToNumber(b, host)), OrZero(StringToNumber(c, host)));
    }
  }

  /** When no key is a date, the values come in ascending numeric order of
      their keys. */
  lemma OrderedByNumber(entries: seq<(string, JsValue)>, host: Host)
    requires forall k :: k in ObjectKeys(entries) ==> host.dateParse(k).None?
    ensures Sorted(OrderedKeys(entries, host), NumberOrder(host))
    ensures forall i, j :: 0 <= i < j < |OrderedKeys(entries, host)| ==>
      !NumLess(OrZero(StringToNumber(OrderedKeys(entries, host)[j], host)), OrZero(StringToNumber(OrderedKeys(entries, host)[i], host)))
  {
    var ks := ObjectKeys(entries);
    SortByAgree(ks, KeyOrder(host), NumberOrder(host));
    NumberOrderStrict(host);
    SortBySorted(ks, NumberOrder(host));
  }

  /** When every key is a date, the values come in chronological order of
      their keys. */
  lemma OrderedByDate(entries: seq<(string, JsValue)>, host: Host)
    requires forall k :: k in ObjectKeys(entries) ==> host.dateParse(k).Some?
    ensures Sorted(OrderedKeys(entries, host), DateOrder(host))
    ensures forall i, j :: 0 <= i < j < |OrderedKeys(entries, host)| ==>
      host.dateParse(OrderedKeys(entries, host)[i]).value <= host.dateParse(OrderedKeys(entries, host)[j]).value
  {
    var ks := ObjectKeys(entries);
    var oks := OrderedKeys(entries, host);
    assert oks == SortBy(ks, DateOrder(host)) by {
      SortByAgree(ks, KeyOrder(host), DateOrder(host));
    }
    assert Sorted(oks, DateOrder(host)) by {
      DateOrderStrict(host);
      SortBySorted(ks, DateOrder(host));
    }
    forall i, j | 0 <= i < j < |oks|
      ensures host.dateParse(oks[i]).value <= host.dateParse(oks[j]).value
    {
      assert oks[i] in multiset(ks) && oks[j] in multiset(ks);
      assert !DateOrder(host)(oks[j], oks[i]);
    }
  }

  /** One point of the prediction chart. */
  datatype ChartPoint = ChartPoint(name: string, value: JsValue)

  /** chartData: the values in order, the i-th labelled "T+i" (from 1). */
  function ChartData(values: seq<JsValue>): (points: seq<ChartPoint>)
    ensures |points| == |values|
    ensures forall i :: 0 <= i < |values| ==>
      points[i].value == values[i] && points[i].name == "T+" + NatToString(i + 1)
  {
    seq(|values|, i requires 0 <= i < |values| => ChartPoint("T+" + NatToString(i + 1), values[i]))
  }

  /** The labels are distinct. */
  lemma ChartLabelsDistinct(values: seq<JsValue>)
    ensures forall i, j :: 0 <= i < j < |values| ==> ChartData(values)[i].name != ChartData(values)[j].name
  {
    forall i, j | 0 <= i < j < |values|
      ensures ChartData(values)[i].name != ChartData(values)[j].name
    {
      var a, b := NatToString(i + 1), NatToString(j + 1);
      NatToStringRoundTrip(i + 1);
      NatToStringRoundTrip(j + 1);
      assert ("T+" + a)[2..] == a && ("T+" + b)[2..] == b;
    }
  }

  function NumbersOf(values: seq<JsValue>, host: Host): (xs: seq<JsNum>)
    ensures |xs| == |values| && forall i :: 0 <= i < |values| ==> xs[i] == OrZero(ToNumber(values[i], host))
  {
    seq(|values|, i requires 0 <= i < |values| => OrZero(ToNumber(values[i], host)))
  }

  /** totalDisplay: the sum of `Number(x) || 0` over a non-empty list, else
      the raw response value when it is a number, else null. */
  function TotalDisplay(values: seq<JsValue>, raw: JsValue, host: Host): (t: JsValue)
    ensures |values| > 0 ==> t == Num(JsSum(NumbersOf(values, host)))
    ensures |values| == 0 && raw.Num? ==> t == raw
    ensures |values| == 0 && !raw.Num? ==> t == Null
  {
    if |values| > 0 then Num(JsSum(NumbersOf(values, host)))
    else if raw.Num? then raw
    else Null
  }

  /** The page's view of a response: `result?.total_prediction`,
      normalised, charted and totalled. */
  function TotalPrediction(result: JsValue, host: Host): (v: (seq<ChartPoint>, JsValue))
    ensures var raw := Get(result, "total_prediction");
      v.0 == ChartData(Normalize(raw, host)) && v.1 == TotalDisplay(Normalize(raw, host), raw, host)
    ensures var raw := Get(result, "total_prediction");
      raw.Arr? ==> |v.0| == |raw.items| && forall i :: 0 <= i < |raw.items| ==> v.0[i].value == raw.items[i]
    ensures var raw := Get(result, "total_prediction");
      !raw.Arr? && !raw.Num? && !raw.Obj? ==> v == ([], Null)
  {
    var raw := Get(result, "total_prediction");
    var values := Normalize(raw, host);
    (ChartData(values), TotalDisplay(values, raw, host))
  }

  /** A single predicted number is charted as T+1 ... */
  lemma SingleNumberChart(n: JsNum, host: Host)
    ensures ChartData(Normalize(Num(n), host)) == [ChartPoint("T+1", Num(n))]
  {
    var vs := Normalize(Num(n), host);
    assert NatToString(1) == "1";
    assert ChartData(vs)[0] == ChartPoint("T+1", Num(n));
  }

  /** ... and shown as itself (`n || 0`). */
  lemma SingleNumberTotal(n: JsNum, host: Host)
    ensures TotalDisplay(Normalize(Num(n), host), Num(n), host) == Num(JsAdd(Finite(0.0), OrZero(n)))
  {
    assert Normalize(Num(n), host) == [Num(n)];
    SumOfOne(OrZero(n));
    NumbersOfOne(n, host);
  }

  lemma NumbersOfOne(n: JsNum, host: Host)
    ensures NumbersOf([Num(n)], host) == [OrZero(n)]
  {
    var xs := NumbersOf([Num(n)], host);
    assert xs[0] == OrZero(ToNumber(Num(n), host));
  }

  lemma SumOfOne(x: JsNum)
    ensures JsSum([x]) == JsAdd(Finite(0.0), x)
  {
    assert [x][..0] == [];
  }

  /** With finite amounts, the total is their exact sum. */
  lemma TotalOfFinite(values: seq<JsValue>, host: Host)
    requires |values| > 0
    requires forall i :: 0 <= i < |values| ==> ToNumber(values[i], host).Finite?
    ensures TotalDisplay(values, Undefined, host) == Num(Finite(Sum(Reals(NumbersOf(values, host)))))
  {
    JsSumFinite(NumbersOf(values, host));
  }
}
