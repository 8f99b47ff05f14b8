/** The user-meta request schema (backend/src/validators/userValidator.js):
    four optional fields, each bounded, and at least one of them present. */
module UserValidator {
  import opened Outcomes
  import opened JsValues
  import opened Schema
  import opened Users

  /** The places the body can fail at. */
  datatype Field = Body | MonthlyBudget | UserType | FirstName | LastName

  /** The parsed body: the fields that were given. */
  datatype UserMeta = UserMeta(monthlyBudget: Option<real>, userType: Option<string>, firstName: Option<string>, lastName: Option<string>)

  /** `z.number().min(0).max(1000000)`. */
  predicate BudgetField(v: JsValue) { v.Num? && v.n.Finite? && 0.0 <= v.n.r <= 1000000.0 }

  /** `z.string().min(1).max(50)`. */
  predicate NameField(v: JsValue) { v.Str? && 1 <= |v.s| <= 50 }

  /** The refine: the parsed object has at least one key, that is, the body
      names at least one of the four fields (other keys are stripped). */
  predicate NamesAField(body: JsValue)
    requires body.Obj?
  {
    HasKey(body.entries, "monthlyBudget") || HasKey(body.entries, "userType")
    || HasKey(body.entries, "firstName") || HasKey(body.entries, "lastName")
  }

  /** updateUserMetaSchema. */
  function ParseUserMeta(body: JsValue): (r: Result<UserMeta, seq<Field>>)
    ensures r.Ok? <==> (IsObject(body)
      && (Get(body, "monthlyBudget").Undefined? || BudgetField(Get(body, "monthlyBudget")))
      && (Get(body, "userType").Undefined? || IsUserType(Get(body, "userType")))
      && (Get(body, "firstName").Undefined? || NameField(Get(body, "firstName")))
      && (Get(body, "lastName").Undefined? || NameField(Get(body, "lastName")))
      && NamesAField(body))
    ensures r.Ok? ==> (r.value.monthlyBudget.Some? <==> !Get(body, "monthlyBudget").Undefined?)
    ensures r.Ok? ==> (r.value.monthlyBudget.Some? ==>
      (r.value.monthlyBudget.value == Get(body, "monthlyBudget").n.r && 0.0 <= r.value.monthlyBudget.value <= 1000000.0))
    ensures r.Ok? ==> (r.value.userType.Some? <==> !Get(body, "userType").Undefined?)
    ensures r.Ok? ==> (r.value.userType.Some? ==>
      (Str(r.value.userType.value) == Get(body, "userType") && r.value.userType.value in AllowedUserTypes))
    ensures r.Ok? ==> (r.value.firstName.Some? <==> !Get(body, "firstName").Undefined?)
    ensures r.Ok? ==> (r.value.firstName.Some? ==>
      (Str(r.value.firstName.value) == Get(body, "firstName") && 1 <= |r.value.firstName.value| <= 50))
    ensures r.Ok? ==> (r.value.lastName.Some? <==> !Get(body, "lastName").Undefined?)
    ensures r.Ok? ==> (r.value.lastName.Some? ==>
      (Str(r.value.lastName.value) == Get(body, "lastName") && 1 <= |r.value.lastName.value| <= 50))
    ensures IsObject(body) && !NamesAField(body) ==> r == Err([Body])
  {
    if !IsObject(body) then Err([Body])
    else
      var mb, ut, fnm, lnm := Get(body, "monthlyBudget"), Get(body, "userType"), Get(body, "firstName"), Get(body, "lastName");
      var issues := Check(mb.Undefined? || BudgetField(mb), MonthlyBudget)
        + Check(ut.Undefined? || IsUserType(ut), UserType)
        + Check(fnm.Undefined? || NameField(fnm), FirstName)
        + Check(lnm.Undefined? || NameField(lnm), LastName);
      // the refine runs once the fields themselves have passed
      if issues != [] then Err(issues)
      else if !NamesAField(body) then Err([Body])
      else Ok(UserMeta(
        if mb.Undefined? then None else Some(mb.n.r),
        if ut.Undefined? then None else Some(ut.s),
        if fnm.Undefined? then None else Some(fnm.s),
        if lnm.Undefined? then None else Some(lnm.s)))
  }

  /** A body with none of the four fields is rejected, even when it has
      other keys. */
  lemma OtherKeysOnly(body: JsValue)
    requires body.Obj?
    requires forall i :: 0 <= i < |body.entries| ==>
      body.entries[i].0 !in {"monthlyBudget", "userType", "firstName", "lastName"}
    ensures ParseUserMeta(body).Err?
  {
    assert !NamesAField(body);
  }
}
