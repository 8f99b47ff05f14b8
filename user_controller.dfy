/** The profile update handler, `updateProfile` in
    backend/src/controllers/userControllers.js: it checks a name, an email,
    a monthly budget and a user type when each is given, builds the `$set`
    document from them and maps a duplicate-email failure of the database
    to its own message. The database answer is a parameter. */
module UserController {
  import opened Text
  import opened Outcomes
  import opened JsValues
  import opened Users
  import opened Numeric
  import UserMetaController

  const NameInvalid := HttpError(400, "Name must be a non-empty string")
  const EmailInvalid := HttpError(400, "Invalid email format")
  const EmailInUse := HttpError(400, "Email already in use")

  /** A run of characters that are neither white space nor '@'
      (`[^\s@]`, with `\s` the same set `trim` removes). */
  predicate EmailChars(t: string)
  {
    forall k :: 0 <= k < |t| ==> !IsJsWhitespace(t[k]) && t[k] != '@'
  }

  /** `[^\s@]+\.[^\s@]+`: such characters with a dot that is neither first
      nor last. */
  predicate DomainMatches(d: string)
  {
    EmailChars(d) && exists p :: 0 < p < |d| - 1 && d[p] == '.'
  }

  /** /^[^\s@]+@[^\s@]+\.[^\s@]+$/.test(s). */
  predicate EmailMatches(s: string)
  {
    exists i :: 0 < i < |s| && s[i] == '@' && EmailChars(s[..i]) && DomainMatches(s[i + 1..])
  }

  /** Every local part, domain and top-level part made of such characters
      forms a matching address. */
  lemma EmailFrom(local: string, domain: string, tld: string)
    requires |local| > 0 && |domain| > 0 && |tld| > 0
    requires EmailChars(local) && EmailChars(domain) && EmailChars(tld)
    ensures EmailMatches(local + "@" + domain + "." + tld)
  {
    var s := local + "@" + domain + "." + tld;
    var i := |local|;
    assert s[..i] == local;
    var d := s[i + 1..];
    assert d == domain + "." + tld;
    assert d[|domain|] == '.';
    forall k | 0 <= k < |d|
      ensures !IsJsWhitespace(d[k]) && d[k] != '@'
    {
      if k < |domain| {
        assert d[k] == domain[k];
      } else if k > |domain| {
        assert d[k] == tld[k - |domain| - 1];
      }
    }
  }

  /** And every matching address has exactly one '@', no white space and at
      least five characters. */
  lemma EmailShape(s: string)
    requires EmailMatches(s)
    ensures forall k :: 0 <= k < |s| ==> !IsJsWhitespace(s[k])
    ensures exists i :: 0 <= i < |s| && s[i] == '@' && forall k :: 0 <= k < |s| && k != i ==> s[k] != '@'
    ensures |s| >= 5
  {
    var i :| 0 < i < |s| && s[i] == '@' && EmailChars(s[..i]) && DomainMatches(s[i + 1..]);
    var d := s[i + 1..];
    var p :| 0 < p < |d| - 1 && d[p] == '.';
    forall k | 0 <= k < |s|
      ensures !IsJsWhitespace(s[k]) && (k != i ==> s[k] != '@')
    {
      if k < i {
        assert s[k] == s[..i][k];
      } else if k > i {
        assert s[k] == d[k - i - 1];
      }
    }
  }

  /** `String(email).trim().toLowerCase()`. */
  function EmailText(email: JsValue, host: Host): (e: string)
    ensures e == "" || (!IsJsWhitespace(e[0]) && !IsJsWhitespace(e[|e| - 1]))
    ensures forall k :: 0 <= k < |e| ==> !('A' <= e[k] <= 'Z')
  {
    var t := Trim(ToStr(email, host));
    LowerOfTrimmed(t);
    Lower(t)
  }

  /** The name check as written: a string that trims to '' (the `if` rejects
      every other value, the message notwithstanding). */
  predicate NameAccepted(name: JsValue) { name.Str? && Trim(name.s) == "" }

  /** The four checks, each passing when its field is absent. */
  predicate NameOk(body: JsValue) { Get(body, "name").Undefined? || NameAccepted(Get(body, "name")) }
  predicate EmailOk(body: JsValue, host: Host) { Get(body, "email").Undefined? || EmailMatches(EmailText(Get(body, "email"), host)) }
  predicate BudgetOk(body: JsValue, host: Host) { Get(body, "monthlyBudget").Undefined? || BudgetAcceptable(ToNumber(Get(body, "monthlyBudget"), host)) }
  predicate TypeOk(body: JsValue) { Get(body, "userType").Undefined? || IsUserType(Get(body, "userType")) }

  /** The body names none of the four fields. */
  predicate NoProfileFields(body: JsValue)
  {
    Get(body, "name").Undefined? && Get(body, "email").Undefined?
    && Get(body, "monthlyBudget").Undefined? && Get(body, "userType").Undefined?
  }

  /** The handler reaches the database. */
  predicate ProfileAccepted(user: JsValue, body: JsValue, host: Host)
  {
    Authenticated(user) && !Nullish(body) && NameOk(body) && EmailOk(body, host)
    && BudgetOk(body, host) && TypeOk(body) && !NoProfileFields(body)
  }

  /** The `$set` document, one optional entry per field. */
  datatype ProfileSet = ProfileSet(name: Option<string>, email: Option<string>, monthlyBudget: Option<JsNum>, userType: Option<JsValue>)

  const EmptyProfileSet := ProfileSet(None, None, None, None)

  /** The `$set` document for a body: the trimmed name, the trimmed and
      lower-cased email, the budget as a number (not rounded) and the user
      type, each only when the body has it. */
  function ProfileUpdate(body: JsValue, host: Host): (update: ProfileSet)
    ensures update.name.Some? <==> !Get(body, "name").Undefined?
    ensures update.email.Some? <==> !Get(body, "email").Undefined?
    ensures update.monthlyBudget.Some? <==> !Get(body, "monthlyBudget").Undefined?
    ensures update.userType.Some? <==> !Get(body, "userType").Undefined?
    ensures update == EmptyProfileSet <==> NoProfileFields(body)
  {
    var name, email, mb, ut := Get(body, "name"), Get(body, "email"), Get(body, "monthlyBudget"), Get(body, "userType");
    ProfileSet(
      if name.Undefined? then None else Some(if name.Str? then Trim(name.s) else ""),
      if email.Undefined? then None else Some(EmailText(email, host)),
      if mb.Undefined? then None else Some(ToNumber(mb, host)),
      if ut.Undefined? then None else Some(ut))
  }

  /** A duplicate key on `email` (MongoDB error 11000). */
  predicate DuplicateEmail(code: JsValue, keyPattern: JsValue)
  {
    code == Num(Finite(11000.0)) && Truthy(keyPattern) && Truthy(Get(keyPattern, "email"))
  }

  /** The response to the database answer. */
  function ProfileReply(db: DbOutcome): (r: Result<JsValue, HttpError>)
    ensures r.Ok? <==> db.Updated?
    ensures db.NotFound? ==> r == Err(UserNotFound)
    ensures db.DbThrew? && DuplicateEmail(db.code, db.keyPattern) ==> r == Err(EmailInUse)
    ensures db.DbThrew? && !DuplicateEmail(db.code, db.keyPattern) ==> r == Err(InternalError)
  {
    match db
    case Updated(u) => Ok(u)
    case NotFound => Err(UserNotFound)
    case DbThrew(code, keyPattern) =>
      if DuplicateEmail(code, keyPattern) then Err(EmailInUse) else Err(InternalError)
  }

  /** updateProfile. `sent` is the `$set` document handed to the database,
      None when the handler stopped before it. The checks run in the order
      name, email, budget, user type, and the first failure answers. */
  method UpdateProfile(user: JsValue, body: JsValue, db: DbOutcome, host: Host)
    returns (r: Result<JsValue, HttpError>, sent: Option<ProfileSet>)
    ensures !Authenticated(user) ==> r == Err(Unauthorized)
    ensures Authenticated(user) && Nullish(body) ==> r == Err(InternalError)
    ensures Authenticated(user) && !Nullish(body) && !NameOk(body) ==> r == Err(NameInvalid)
    ensures Authenticated(user) && !Nullish(body) && NameOk(body) && !EmailOk(body, host) ==> r == Err(EmailInvalid)
    ensures (Authenticated(user) && !Nullish(body) && NameOk(body) && EmailOk(body, host)
      && !BudgetOk(body, host)) ==> r == Err(BudgetInvalid)
    ensures (Authenticated(user) && !Nullish(body) && NameOk(body) && EmailOk(body, host)
      && BudgetOk(body, host) && !TypeOk(body)) ==> r == Err(UserTypeInvalid)
    ensures Authenticated(user) && !Nullish(body) && NoProfileFields(body) ==> r == Err(NoValidFields)
    ensures sent.Some? <==> ProfileAccepted(user, body, host)
    ensures sent.Some? ==> sent.value == ProfileUpdate(body, host) && r == ProfileReply(db)
  {
    sent := None;
    if !Authenticated(user) {
      return Err(Unauthorized), None;
    }
    // destructuring a nullish body throws; the error has no code, so 500
    if Nullish(body) {
      return Err(InternalError), None;
    }
    var name, email := Get(body, "name"), Get(body, "email");
    var monthlyBudget, userType := Get(body, "monthlyBudget"), Get(body, "userType");
    var update := EmptyProfileSet;
    if !name.Undefined? {
      if !name.Str? || Trim(name.s) != "" {
        return Err(NameInvalid), None;
      }
      update := update.(name := Some(Trim(name.s)));
    }
    if !email.Undefined? {
      var emailStr := EmailText(email, host);
      if !EmailMatches(emailStr) {
        return Err(EmailInvalid), None;
      }
      update := update.(email := Some(emailStr));
    }
    if !monthlyBudget.Undefined? {
      var mb := ToNumber(monthlyBudget, host);
      if mb == NaN || JsLess(mb, 0.0) {
        return Err(BudgetInvalid), None;
      }
      update := update.(monthlyBudget := Some(mb));
    }
    if !userType.Undefined? {
      if !IsUserType(userType) {
        return Err(UserTypeInvalid), None;
      }
      update := update.(userType := Some(userType));
    }
    if update == EmptyProfileSet {
      return Err(NoValidFields), None;
    }
    sent := Some(update);
    r := ProfileReply(db);
  }

  /** What reaches the database: a name only as '', an email that is the
      text given, trimmed and lower-cased, and matches the pattern, the
      budget exactly as `Number` reads it (not rounded), a non-negative
      number or +Infinity, and the user type given, one of the six. */
  lemma StoredProfile(user: JsValue, body: JsValue, host: Host)
    requires ProfileAccepted(user, body, host)
    ensures var update := ProfileUpdate(body, host);
      update.name.Some? ==> update.name.value == ""
    ensures var update := ProfileUpdate(body, host);
      update.email.Some? ==>
        (update.email.value == Lower(Trim(ToStr(Get(body, "email"), host))) && EmailMatches(update.email.value))
    ensures var update := ProfileUpdate(body, host);
      update.monthlyBudget.Some? ==>
        (var stored := update.monthlyBudget.value;
         stored == ToNumber(Get(body, "monthlyBudget"), host) && (stored == PosInf || (stored.Finite? && stored.r >= 0.0)))
    ensures var update := ProfileUpdate(body, host);
      update.userType.Some? ==> (update.userType.value == Get(body, "userType") && IsUserType(update.userType.value))
  {
    var name := Get(body, "name");
    if !name.Undefined? {
      assert Trim(name.s) == "";
    }
  }

  /** The two handlers store the same budget differently: a body giving
      10.4 stores 10 through the user-meta handler and 10.4 through this
      one. */
  lemma BudgetRoundingDiffers(host: Host)
    ensures var body := Obj([("monthlyBudget", Num(Finite(10.4)))]);
      UserMetaController.MetaUpdate(body, host).monthlyBudget == Some(Finite(10.0))
      && ProfileUpdate(body, host).monthlyBudget == Some(Finite(10.4))
  {
    var body := Obj([("monthlyBudget", Num(Finite(10.4)))]);
    assert Get(body, "monthlyBudget") == Num(Finite(10.4));
    assert Round(10.4) == 10;
  }

  /** The name check is inverted: a name with any visible character is
      refused, so a profile can never be renamed to a non-blank name. */
  lemma NameCheckInverted(s: string)
    requires Trim(s) != ""
    ensures !NameAccepted(Str(s))
  {
  }
}
