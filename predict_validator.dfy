/** The predict request schema (backend/src/validators/predictValidator.js):
    `horizonDates` is coerced to a number between 1 and 12 and defaults
    to 1. */
module PredictValidator {
  import opened Outcomes
  import opened JsValues
  import opened Schema

  /** The places the request can fail at. */
  datatype Field = Body | HorizonDates | Params | Query

  /** `z.coerce.number().min(1).max(12)`: Number(v), not NaN, in [1, 12]. */
  predicate HorizonAcceptable(n: JsNum) { n.Finite? && 1.0 <= n.r <= 12.0 }

  /** predictSchema: the parsed `horizonDates`. */
  function ParsePredict(body: JsValue, params: JsValue, query: JsValue, host: Host): (r: Result<real, seq<Field>>)
    ensures r.Ok? <==> ((body.Undefined? || (body.Obj?
          && (Get(body, "horizonDates").Undefined? || HorizonAcceptable(ToNumber(Get(body, "horizonDates"), host)))))
      && EmptyObjectOrAbsent(params) && EmptyObjectOrAbsent(query))
    ensures r.Ok? ==> 1.0 <= r.value <= 12.0
    ensures r.Ok? && (body.Undefined? || Get(body, "horizonDates").Undefined?) ==> r.value == 1.0
    ensures r.Ok? && body.Obj? && !Get(body, "horizonDates").Undefined? ==> Finite(r.value) == ToNumber(Get(body, "horizonDates"), host)
  {
    var h := if body.Obj? && !Get(body, "horizonDates").Undefined? then ToNumber(Get(body, "horizonDates"), host) else Finite(1.0);
    var issues :=
      (if body.Undefined? then []
       else if !body.Obj? then [Body]
       else Check(HorizonAcceptable(h), HorizonDates))
      + Check(EmptyObjectOrAbsent(params), Params)
      + Check(EmptyObjectOrAbsent(query), Query);
    if issues != [] then Err(issues) else Ok(h.r)
  }

  /** Integrality is not checked: 2.5 months pass. */
  lemma FractionalHorizonPasses(host: Host)
    ensures ParsePredict(Obj([("horizonDates", Num(Finite(2.5)))]), Undefined, Undefined, host) == Ok(2.5)
  {
  }
}
