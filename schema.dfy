/** The parts of the zod schema library the validators use, on JSON-like
    values: a parse either yields the parsed value or fails with the
    fields whose checks failed (messages are not modelled). */
module Schema {
  import opened Outcomes
  import opened JsValues

  /** The issues of one check: none when it holds, its path otherwise. */
  function Check<P>(ok: bool, path: P): (issues: seq<P>)
    ensures ok ==> issues == []
    ensures !ok ==> issues == [path]
  {
    if ok then [] else [path]
  }

  /** z.object(...) accepts plain objects only (not arrays, not null). */
  predicate IsObject(v: JsValue) { v.Obj? }

  /** z.number(): a number that is not NaN (the infinities pass). */
  predicate IsNumber(v: JsValue) { v.Num? && v.n != NaN }

  /** Truncation toward zero of a time value. */
  function Truncate(r: real): (t: int)
    ensures r >= 0.0 ==> t == r.Floor
    ensures r < 0.0 ==> t == -((-r).Floor)
  {
    if r >= 0.0 then r.Floor else -((-r).Floor)
  }

  /** The largest time value a Date holds, in milliseconds. */
  const MaxTimeValue := 8640000000000000.0

  /** z.coerce.date(): `new Date(v)`, and its time value unless that is NaN. */
  function CoerceDate(v: JsValue, host: Host): (t: Option<int>)
    ensures v.Undefined? ==> t == None
    ensures v.Null? ==> t == Some(0)
    ensures v.Num? && v.n.Finite? ==> (t.Some? <==> -MaxTimeValue <= v.n.r <= MaxTimeValue)
    ensures v.Num? && !v.n.Finite? ==> t == None
    ensures v.Str? ==> t == host.dateParse(v.s)
  {
    match v
    case Undefined => None
    case Null => Some(0)
    case Bool(b) => Some(if b then 1 else 0)
    case Num(n) => if n.Finite? && -MaxTimeValue <= n.r <= MaxTimeValue then Some(Truncate(n.r)) else None
    case Str(s) => host.dateParse(s)
    case _ => host.dateParse(ToStr(v, host))
  }

  /** z.object({}).optional().default({}): absent, or any plain object
      (whose keys are stripped). */
  predicate EmptyObjectOrAbsent(v: JsValue) { v.Undefined? || v.Obj? }
}
