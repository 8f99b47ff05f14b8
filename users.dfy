/** What the user handlers and the user schema share: the six user types,
    the authentication check, the errors they report and the outcome of the
    database update they end with. */
module Users {
  import opened Text
  import opened Outcomes
  import opened JsValues

  /** The allowed values of `userType`. */
  const AllowedUserTypes: seq<string> := [
    "college_student", "young_professional", "family_moderate",
    "family_high", "luxury_lifestyle", "senior_retired"]

  /** `allowedUserTypes.includes(v)`: only one of the six strings. */
  predicate IsUserType(v: JsValue) { v.Str? && v.s in AllowedUserTypes }

  /** `req.user && req.user._id` is truthy. */
  predicate Authenticated(user: JsValue) { Truthy(user) && Truthy(Get(user, "_id")) }

  const Unauthorized := HttpError(401, "Unauthorized")
  const InternalError := HttpError(500, "Internal Server Error")
  const BudgetInvalid := HttpError(400, "monthlyBudget must be a non-negative number")
  const UserTypeInvalid := HttpError(400, "userType must be one of: " + Join(AllowedUserTypes, ", "))
  const NoValidFields := HttpError(400, "No valid fields to update")
  const UserNotFound := HttpError(404, "User not found")

  /** What `User.findByIdAndUpdate(...)` produced: the updated document, no
      document, or a thrown error with its `code` and `keyPattern`. */
  datatype DbOutcome = Updated(user: JsValue) | NotFound | DbThrew(code: JsValue, keyPattern: JsValue)

  /** `mb = Number(monthlyBudget)` passes `!(Number.isNaN(mb) || mb < 0)`. */
  predicate BudgetAcceptable(mb: JsNum) { mb != NaN && !JsLess(mb, 0.0) }
}
