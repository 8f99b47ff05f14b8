/** What the two forecast services share: the horizon check they start
    with, the error it raises, and the outcome of their POST to the model
    service. */
module ForecastApi {
  import opened Outcomes
  import opened JsValues

  /** `Number.isInteger(h) && h > 0`. */
  predicate ValidHorizon(h: JsNum) { IsInteger(h) && h.r > 0.0 }

  const InvalidHorizon := HttpError(400, "Invalid horizon (must be a positive integer)")

  /** What a service call rejects with: the ApiError it throws itself, or the
      RangeError of allocating a horizon-sized array. */
  datatype ServiceError = ApiFailure(error: HttpError) | RangeError

  /** The outcome of the POST to the model service: it threw (network,
      timeout, HTTP status), or it produced a response body. */
  datatype Reply = Threw | Replied(body: JsValue)

  /** A finite, non-negative number: what both sanitisers keep. */
  predicate Usable(n: JsNum) { n.Finite? && n.r >= 0.0 }
}
