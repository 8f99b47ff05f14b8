/** JavaScript values as the core sees them: numbers that may be NaN or
    infinite, and the JSON-like values that arrive in request bodies and
    service responses, with the coercions (`Number(x)`, `String(x)`,
    truthiness, `??`) that the source applies to them.

    Two coercions are not spelled out and are parameters (`Host`): parsing
    a string that is not a plain digit string into a number, and printing a
    number that is not a small integer. */
module JsValues {
  import opened Numeric
  import opened Text
  import opened Outcomes

  /** The largest length `new Array(n)`, `Array(n)` and `Array.from({length: n})`
      accept: a longer one throws RangeError. */
  const MaxArrayLength: int := 0xFFFF_FFFF

  /** A JavaScript number. Finite values are exact reals. */
  datatype JsNum = Finite(r: real) | NaN | PosInf | NegInf

  /** A JSON-like JavaScript value. Objects keep their own key order; a key
      is looked up at its first occurrence. */
  datatype JsValue =
    | Undefined
    | Null
    | Bool(b: bool)
    | Num(n: JsNum)
    | Str(s: string)
    | Arr(items: seq<JsValue>)
    | Obj(entries: seq<(string, JsValue)>)

  /** The library behaviour the model takes as given. */
  datatype Host = Host(
    parseNumber: string -> JsNum,   // Number(s) for a trimmed, non-digit string
    showNumber: JsNum -> string,     // String(n) for a number that is not a small integer
    dateParse: string -> Option<int> // Date.parse(s), None for NaN
  )

  /** ToBoolean. */
  predicate Truthy(v: JsValue)
  {
    match v
    case Undefined => false
    case Null => false
    case Bool(b) => b
    case Num(n) => NumTruthy(n)
    case Str(s) => s != ""
    case Arr(_) => true
    case Obj(_) => true
  }

  predicate NumTruthy(n: JsNum)
  {
    match n
    case Finite(r) => r != 0.0
    case NaN => false
    case _ => true
  }

  /** `n || 0` on a number: NaN (and 0) become 0. */
  function OrZero(n: JsNum): (r: JsNum)
    ensures r != NaN
    ensures n.Finite? ==> r == n
  {
    if NumTruthy(n) then n else Finite(0.0)
  }

  /** `x == null`: undefined or null. */
  predicate Nullish(v: JsValue) { v == Undefined || v == Null }

  /** `a ?? b`. */
  function Coalesce(a: JsValue, b: JsValue): JsValue
  {
    if Nullish(a) then b else a
  }

  /** Property access `o[key]` on an object; undefined elsewhere. */
  function Get(o: JsValue, key: string): (r: JsValue)
    ensures !o.Obj? ==> r == Undefined
    ensures o.Obj? && (forall i :: 0 <= i < |o.entries| ==> o.entries[i].0 != key) ==> r == Undefined
    ensures o.Obj? && !HasKey(o.entries, key) ==> r == Undefined
  {
    if o.Obj? then Lookup(o.entries, key) else Undefined
  }

  function Lookup(entries: seq<(string, JsValue)>, key: string): (r: JsValue)
    ensures (forall i :: 0 <= i < |entries| ==> entries[i].0 != key) ==> r == Undefined
  {
    if |entries| == 0 then Undefined
    else if entries[0].0 == key then entries[0].1
    else Lookup(entries[1..], key)
  }

  predicate HasKey(entries: seq<(string, JsValue)>, key: string)
  {
    exists i :: 0 <= i < |entries| && entries[i].0 == key
  }

  /** Number(s) for a string: surrounding white space is ignored, the empty
      string is 0, a plain digit string is its decimal value; every other
      string is for the host to parse. */
  function StringToNumber(s: string, host: Host): JsNum
  {
    var t := Trim(s);
    if t == "" then Finite(0.0)
    else if IsDigitString(t) then Finite(DigitsValue(t) as real)
    else host.parseNumber(t)
  }

  /** Number(v). Arrays and plain objects convert through their string form. */
  function ToNumber(v: JsValue, host: Host): JsNum
  {
    match v
    case Undefined => NaN
    case Null => Finite(0.0)
    case Bool(b) => if b then Finite(1.0) else Finite(0.0)
    case Num(n) => n
    case Str(s) => StringToNumber(s, host)
    case _ => StringToNumber(ToStr(v, host), host)
  }

  /** String(v). */
  function ToStr(v: JsValue, host: Host): string
    decreases v
  {
    match v
    case Undefined => "undefined"
    case Null => "null"
    case Bool(b) => if b then "true" else "false"
    case Num(n) => NumberToString(n, host)
    case Str(s) => s
    case Arr(items) => JoinItems(items, host)
    case Obj(_) => "[object Object]"
  }

  /** Array.prototype.join(","): null and undefined elements print as "". */
  function JoinItems(items: seq<JsValue>, host: Host): string
    decreases items
  {
    if |items| == 0 then ""
    else
      var first := if Nullish(items[0]) then "" else ToStr(items[0], host);
      if |items| == 1 then first else first + "," + JoinItems(items[1..], host)
  }

  /** String(n): integers below 10^21 print in decimal, the special values by
      name; everything else is the host's formatting. */
  function NumberToString(n: JsNum, host: Host): string
  {
    match n
    case NaN => "NaN"
    case PosInf => "Infinity"
    case NegInf => "-Infinity"
    case Finite(r) =>
      if r == r.Floor as real && -1000000000000000000000 < r.Floor < 1000000000000000000000
      then IntToString(r.Floor)
      else host.showNumber(n)
  }

  /** Number.isFinite. */
  predicate IsFinite(n: JsNum) { n.Finite? }

  /** `x < c` for a number and a finite bound: false for NaN. */
  predicate JsLess(x: JsNum, c: real)
  {
    match x
    case Finite(r) => r < c
    case NegInf => true
    case _ => false
  }

  /** `x > c` for a number and a finite bound: false for NaN. */
  predicate JsGreater(x: JsNum, c: real)
  {
    (x.Finite? && x.r > c) || x == PosInf
  }

  /** `a < b` on two numbers: false whenever NaN is involved. */
  predicate NumLess(a: JsNum, b: JsNum)
  {
    match (a, b)
    case (Finite(x), Finite(y)) => x < y
    case (NegInf, Finite(_)) => true
    case (NegInf, PosInf) => true
    case (Finite(_), PosInf) => true
    case _ => false
  }

  /** `a < b` is a strict order on numbers. */
  lemma NumLessStrict(a: JsNum, b: JsNum, c: JsNum)
    ensures !NumLess(a, a)
    ensures NumLess(a, b) && NumLess(b, c) ==> NumLess(a, c)
    ensures NumLess(a, b) ==> a != NaN && b != NaN && !NumLess(b, a)
  {
  }

  /** Number.isInteger. */
  predicate IsInteger(n: JsNum) { n.Finite? && n.r == n.r.Floor as real }

  /** Math.round. */
  function JsRound(n: JsNum): (r: JsNum)
    ensures n.Finite? <==> r.Finite?
    ensures n.Finite? ==> r.r == Round(n.r) as real
    ensures !n.Finite? ==> r == n
  {
    if n.Finite? then Finite(Round(n.r) as real) else n
  }

  /** Math.max(0, n): NaN stays NaN. */
  function JsMax0(n: JsNum): (r: JsNum)
    ensures n.Finite? ==> r == Finite(Max(0.0, n.r))
    ensures n == NaN <==> r == NaN
    ensures n == NegInf ==> r == Finite(0.0)
    ensures n == PosInf ==> r == PosInf
  {
    match n
    case Finite(x) => Finite(Max(0.0, x))
    case NegInf => Finite(0.0)
    case _ => n
  }

  /** n * k for a finite factor k. */
  function JsScale(n: JsNum, k: real): JsNum
  {
    match n
    case Finite(x) => Finite(x * k)
    case NaN => NaN
    case PosInf => if k > 0.0 then PosInf else if k < 0.0 then NegInf else NaN
    case NegInf => if k > 0.0 then NegInf else if k < 0.0 then PosInf else NaN
  }

  /** a + b. */
  function JsAdd(a: JsNum, b: JsNum): (r: JsNum)
    ensures a.Finite? && b.Finite? ==> r == Finite(a.r + b.r)
    ensures a == NaN || b == NaN ==> r == NaN
  {
    match (a, b)
    case (Finite(x), Finite(y)) => Finite(x + y)
    case (NaN, _) => NaN
    case (_, NaN) => NaN
    case (PosInf, NegInf) => NaN
    case (NegInf, PosInf) => NaN
    case (PosInf, _) => PosInf
    case (_, PosInf) => PosInf
    case _ => NegInf
  }

  /** `xs.reduce((a, b) => a + b, 0)` over numbers. */
  function JsSum(xs: seq<JsNum>): JsNum
  {
    if |xs| == 0 then Finite(0.0) else JsAdd(JsSum(xs[..|xs| - 1]), xs[|xs| - 1])
  }

  /** When every term is finite the JavaScript sum is the exact sum. */
  lemma {:induction false} JsSumFinite(xs: seq<JsNum>)
    requires forall i :: 0 <= i < |xs| ==> xs[i].Finite?
    ensures JsSum(xs) == Finite(Sum(Reals(xs)))
  {
    if |xs| > 0 {
      JsSumFinite(xs[..|xs| - 1]);
      assert Reals(xs)[..|xs| - 1] == Reals(xs[..|xs| - 1]);
    }
  }

  /** The real parts of finite numbers. */
  function Reals(xs: seq<JsNum>): (r: seq<real>)
    requires forall i :: 0 <= i < |xs| ==> xs[i].Finite?
    ensures |r| == |xs| && forall i :: 0 <= i < |xs| ==> r[i] == xs[i].r
  {
    seq(|xs|, i requires 0 <= i < |xs| => xs[i].r)
  }

  /** Numbers as finite JavaScript numbers. */
  function Nums(xs: seq<real>): (r: seq<JsNum>)
    ensures |r| == |xs| && forall i :: 0 <= i < |xs| ==> r[i] == Finite(xs[i])
  {
    seq(|xs|, i requires 0 <= i < |xs| => Finite(xs[i]))
  }

  /** a / b on numbers, for a finite divisor. */
  function JsDivide(a: JsNum, b: real): (r: JsNum)
    ensures r.Finite? <==> a.Finite? && b != 0.0
    ensures r.Finite? ==> r.r == a.r / b
  {
    match a
    case Finite(x) =>
      if b != 0.0 then Finite(x / b)
      else if x > 0.0 then PosInf else if x < 0.0 then NegInf else NaN
    case NaN => NaN
    case PosInf => if b > 0.0 then PosInf else if b < 0.0 then NegInf else PosInf
    case NegInf => if b > 0.0 then NegInf else if b < 0.0 then PosInf else NegInf
  }

  /** Integers as JavaScript numbers. */
  function Ints(xs: seq<int>): (r: seq<JsNum>)
    ensures |r| == |xs| && forall i :: 0 <= i < |xs| ==> r[i] == Finite(xs[i] as real)
  {
    seq(|xs|, i requires 0 <= i < |xs| => Finite(xs[i] as real))
  }
}
