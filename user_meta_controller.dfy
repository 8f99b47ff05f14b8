/** The user-meta handler (backend/src/controllers/userMetaController.js):
    it takes at most a monthly budget and a user type from the body,
    checks each one present, and hands the resulting `$set` document to
    the database. The database answer is a parameter. */
module UserMetaController {
  import opened Numeric
  import opened Outcomes
  import opened JsValues
  import opened Users

  /** The `$set` document, one optional entry per field. */
  datatype MetaSet = MetaSet(monthlyBudget: Option<JsNum>, userType: Option<JsValue>)

  /** The `$set` document built from a body: the rounded `monthlyBudget`
      when the body has one and the `userType` when it has one. */
  function MetaUpdate(body: JsValue, host: Host): (update: MetaSet)
    ensures update.monthlyBudget.Some? <==> !Get(body, "monthlyBudget").Undefined?
    ensures update.userType.Some? <==> !Get(body, "userType").Undefined?
  {
    var mb, ut := Get(body, "monthlyBudget"), Get(body, "userType");
    MetaSet(
      if mb.Undefined? then None else Some(JsRound(ToNumber(mb, host))),
      if ut.Undefined? then None else Some(ut))
  }

  /** The handler reaches the database: an authenticated user, a body that
      can be destructured, each given field acceptable, and at least one
      given. */
  predicate MetaAccepted(user: JsValue, body: JsValue, host: Host)
  {
    var mb, ut := Get(body, "monthlyBudget"), Get(body, "userType");
    Authenticated(user) && !Nullish(body)
    && (mb.Undefined? || BudgetAcceptable(ToNumber(mb, host)))
    && (ut.Undefined? || IsUserType(ut))
    && !(mb.Undefined? && ut.Undefined?)
  }

  /** The response to the database answer: the updated user, 404 without
      one, 500 when it threw. */
  function MetaReply(db: DbOutcome): (r: Result<JsValue, HttpError>)
    ensures r.Ok? <==> db.Updated?
    ensures db.NotFound? ==> r == Err(UserNotFound)
    ensures db.DbThrew? ==> r == Err(InternalError)
  {
    match db
    case Updated(u) => Ok(u)
    case NotFound => Err(UserNotFound)
    case DbThrew(_, _) => Err(InternalError)
  }

  /** updateUserMeta. `sent` is the `$set` document handed to the database,
      None when the handler stopped before it. */
  method UpdateUserMeta(user: JsValue, body: JsValue, db: DbOutcome, host: Host)
    returns (r: Result<JsValue, HttpError>, sent: Option<MetaSet>)
    ensures !Authenticated(user) ==> r == Err(Unauthorized)
    ensures Authenticated(user) && Nullish(body) ==> r == Err(InternalError)
    ensures (Authenticated(user) && !Nullish(body) && !Get(body, "monthlyBudget").Undefined?
      && !BudgetAcceptable(ToNumber(Get(body, "monthlyBudget"), host))) ==> r == Err(BudgetInvalid)
    ensures (Authenticated(user) && !Nullish(body)
      && (Get(body, "monthlyBudget").Undefined? || BudgetAcceptable(ToNumber(Get(body, "monthlyBudget"), host)))
      && !Get(body, "userType").Undefined? && !IsUserType(Get(body, "userType"))) ==> r == Err(UserTypeInvalid)
    ensures (Authenticated(user) && !Nullish(body)
      && Get(body, "monthlyBudget").Undefined? && Get(body, "userType").Undefined?) ==> r == Err(NoValidFields)
    ensures sent.Some? <==> MetaAccepted(user, body, host)
    ensures sent.Some? ==> sent.value == MetaUpdate(body, host) && r == MetaReply(db)
  {
    sent := None;
    if !Authenticated(user) {
      return Err(Unauthorized), None;
    }
    // destructuring a nullish body throws, and the catch answers 500
    if Nullish(body) {
      return Err(InternalError), None;
    }
    var monthlyBudget, userType := Get(body, "monthlyBudget"), Get(body, "userType");
    var update := MetaSet(None, None);
    if !monthlyBudget.Undefined? {
      var mb := ToNumber(monthlyBudget, host);
      if mb == NaN || JsLess(mb, 0.0) {
        return Err(BudgetInvalid), None;
      }
      update := update.(monthlyBudget := Some(JsRound(mb)));
    }
    if !userType.Undefined? {
      if !IsUserType(userType) {
        return Err(UserTypeInvalid), None;
      }
      update := update.(userType := Some(userType));
    }
    if update == MetaSet(None, None) {
      return Err(NoValidFields), None;
    }
    sent := Some(update);
    r := MetaReply(db);
  }

  /** A budget that reaches the database is `Math.round` of the number
      given: +Infinity stays, a finite number becomes the nearest integer
      (a half rounding up), never negative. The user type is the one given,
      one of the six. */
  lemma StoredMeta(user: JsValue, body: JsValue, host: Host)
    requires MetaAccepted(user, body, host)
    ensures var update, n := MetaUpdate(body, host), ToNumber(Get(body, "monthlyBudget"), host);
      update.monthlyBudget.Some? ==> n.Finite? || n == PosInf
    ensures var update, n := MetaUpdate(body, host), ToNumber(Get(body, "monthlyBudget"), host);
      update.monthlyBudget.Some? && n == PosInf ==> update.monthlyBudget.value == PosInf
    ensures var update, n := MetaUpdate(body, host), ToNumber(Get(body, "monthlyBudget"), host);
      update.monthlyBudget.Some? && n.Finite? ==>
        (var stored := update.monthlyBudget.value;
         IsInteger(stored) && n.r - 0.5 < stored.r <= n.r + 0.5 && stored.r >= 0.0)
    ensures var update := MetaUpdate(body, host);
      update.userType.Some? ==> (update.userType.value == Get(body, "userType") && IsUserType(update.userType.value))
  {
    var mb := Get(body, "monthlyBudget");
    if !mb.Undefined? {
      var n := ToNumber(mb, host);
      assert BudgetAcceptable(n);
      if n.Finite? {
        RoundMonotone(0.0, n.r);
      }
    }
  }

  /** Only the two fields matter: bodies that agree on them are treated
      alike, whatever else they hold. */
  lemma OtherFieldsIgnored(user: JsValue, body: JsValue, other: JsValue, host: Host)
    requires Nullish(body) == Nullish(other)
    requires Get(body, "monthlyBudget") == Get(other, "monthlyBudget")
    requires Get(body, "userType") == Get(other, "userType")
    ensures MetaAccepted(user, body, host) == MetaAccepted(user, other, host)
    ensures MetaUpdate(body, host) == MetaUpdate(other, host)
  {
  }
}
