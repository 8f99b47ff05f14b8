/** The expense request schemas (backend/src/validators/expensesValidator.js):
    creating an expense, updating one and addressing one by id, with the
    category check that also accepts four legacy names and maps them to
    their current names. */
module ExpensesValidator {
  import opened Text
  import opened Outcomes
  import opened JsValues
  import opened Schema

  /** The thirteen current category names. */
  const CanonicalCategories: seq<string> := [
    "Food & Drink", "Travel", "Utilities", "Entertainment", "Health & Fitness",
    "Shopping", "Rent", "Other", "Salary", "Investment", "Clothing",
    "Education", "Personal Care"]

  /** The legacy names and the current names they stand for. */
  const LegacyNames: map<string, string> := map[
    "Food" := "Food & Drink",
    "Transport" := "Travel",
    "Healthcare" := "Health & Fitness",
    "Housing" := "Rent"]

  /** The refine: the trimmed value is a current or a legacy name. */
  predicate ValidCategory(val: string)
  {
    Trim(val) in CanonicalCategories || Trim(val) in LegacyNames
  }

  /** The transform: a legacy name becomes its current name, anything else
      is returned trimmed. Always a current name. */
  function Canonicalise(val: string): (c: string)
    requires ValidCategory(val)
    ensures c in CanonicalCategories
    ensures Trim(val) in LegacyNames ==> c == LegacyNames[Trim(val)]
    ensures Trim(val) in CanonicalCategories ==> c == Trim(val)
  {
    var t := Trim(val);
    LegacyTargets();
    CanonicalNames();
    if t in LegacyNames then LegacyNames[t]
    else t
  }

  /** Every legacy name stands for a current name. */
  lemma LegacyTargets()
    ensures forall k :: k in LegacyNames ==> LegacyNames[k] in CanonicalCategories
  {
    assert LegacyNames.Keys == {"Food", "Transport", "Healthcare", "Housing"};
    assert CanonicalCategories[0] == "Food & Drink" && CanonicalCategories[1] == "Travel";
    assert CanonicalCategories[4] == "Health & Fitness" && CanonicalCategories[6] == "Rent";
  }

  /** No current name is a legacy name, and every current name is already
      trimmed. */
  lemma CanonicalNames()
    ensures forall c :: c in CanonicalCategories ==> c !in LegacyNames
    ensures forall c :: c in CanonicalCategories ==> Trim(c) == c
  {
    forall c | c in CanonicalCategories
      ensures c !in LegacyNames && Trim(c) == c
    {
      var i :| 0 <= i < |CanonicalCategories| && CanonicalCategories[i] == c;
      CanonicalNotLegacy(i);
      CanonicalTrimmed(i);
    }
  }

  lemma CanonicalTrimmed(i: nat)
    requires i < |CanonicalCategories|
    ensures Trim(CanonicalCategories[i]) == CanonicalCategories[i]
  {
    var c := CanonicalCategories[i];
    assert !IsJsWhitespace(c[0]) && !IsJsWhitespace(c[|c| - 1]);
    TrimIdentity(c);
  }

  /** No current name is a legacy name: they differ in length or in their
      first character. */
  lemma CanonicalNotLegacy(i: nat)
    requires i < |CanonicalCategories|
    ensures CanonicalCategories[i] !in LegacyNames
  {
    var c := CanonicalCategories[i];
    assert LegacyNames.Keys == {"Food", "Transport", "Healthcare", "Housing"};
    if i == 0 {
      assert c == "Food & Drink";
    } else if i == 1 {
      assert c == "Travel";
    } else if i == 2 {
      assert c == "Utilities";
    } else if i == 3 {
      assert c == "Entertainment";
    } else if i == 4 {
      assert c == "Health & Fitness";
    } else if i == 5 {
      assert c == "Shopping";
    } else if i == 6 {
      assert c == "Rent";
    } else if i == 7 {
      assert c == "Other";
    } else if i == 8 {
      assert c == "Salary";
    } else if i == 9 {
      assert c == "Investment";
    } else if i == 10 {
      assert c == "Clothing";
    } else if i == 11 {
      assert c == "Education";
    } else {
      assert c == "Personal Care";
    }
    assert c != "Food" && c != "Transport" && c != "Healthcare" && c != "Housing";
  }

  /** A legacy name, as written, is accepted and maps to its current name
      (Food to Food & Drink, Transport to Travel, Healthcare to Health &
      Fitness, Housing to Rent). */
  lemma LegacyKept(k: string)
    requires k in LegacyNames
    ensures ValidCategory(k) && Canonicalise(k) == LegacyNames[k]
  {
    assert k == "Food" || k == "Transport" || k == "Healthcare" || k == "Housing";
    assert !IsJsWhitespace(k[0]) && !IsJsWhitespace(k[|k| - 1]);
    TrimIdentity(k);
  }

  /** A current name is accepted and passes through unchanged. */
  lemma CanonicalKept(c: string)
    requires c in CanonicalCategories
    ensures ValidCategory(c) && Canonicalise(c) == c
  {
    CanonicalNames();
  }

  /** Canonicalising is idempotent: its result is accepted and maps to
      itself. */
  lemma CanonicaliseIdempotent(val: string)
    requires ValidCategory(val)
    ensures ValidCategory(Canonicalise(val)) && Canonicalise(Canonicalise(val)) == Canonicalise(val)
  {
    CanonicalKept(Canonicalise(val));
  }

  /** The parsed body of a new expense. */
  datatype NewExpense = NewExpense(amount: JsNum, category: string, date: Option<int>, note: string)

  /** The parsed body of an expense update, with the id from the path. */
  datatype ExpenseUpdate = ExpenseUpdate(amount: Option<JsNum>, category: Option<string>, date: Option<int>, note: Option<string>, id: string)

  /** `amount: z.number().positive()`. */
  predicate ValidAmount(v: JsValue) { IsNumber(v) && JsGreater(v.n, 0.0) }

  predicate CategoryField(v: JsValue) { v.Str? && ValidCategory(v.s) }

  /** `z.coerce.date().optional()`. */
  predicate DateField(v: JsValue, host: Host) { v.Undefined? || CoerceDate(v, host).Some? }

  /** `z.string().max(500).optional()`. */
  predicate NoteField(v: JsValue) { v.Undefined? || (v.Str? && |v.s| <= 500) }

  /** `z.string().length(24)`: the shape of a MongoDB ObjectId. */
  predicate IdField(v: JsValue) { v.Str? && |v.s| == 24 }

  /** The places a request can fail at. */
  datatype Field = Body | Amount | CategoryName | Date | Note | Params | Id | Query

  /** createExpenseSchema: a positive amount, an accepted category, an
      optional date and a note of at most 500 characters defaulting to ''. */
  function ParseCreate(body: JsValue, params: JsValue, query: JsValue, host: Host): (r: Result<NewExpense, seq<Field>>)
    ensures r.Ok? <==> (IsObject(body) && ValidAmount(Get(body, "amount")) && CategoryField(Get(body, "category"))
      && DateField(Get(body, "date"), host) && NoteField(Get(body, "note"))
      && EmptyObjectOrAbsent(params) && EmptyObjectOrAbsent(query))
    ensures r.Ok? ==> (r.value.amount == Get(body, "amount").n
      && r.value.category == Canonicalise(Get(body, "category").s)
      && r.value.date == CoerceDate(Get(body, "date"), host)
      && r.value.note == (if Get(body, "note").Undefined? then "" else Get(body, "note").s))
  {
    var issues :=
      (if !IsObject(body) then [Body]
       else Check(ValidAmount(Get(body, "amount")), Amount)
            + Check(CategoryField(Get(body, "category")), CategoryName)
            + Check(DateField(Get(body, "date"), host), Date)
            + Check(NoteField(Get(body, "note")), Note))
      + Check(EmptyObjectOrAbsent(params), Params)
      + Check(EmptyObjectOrAbsent(query), Query);
    if issues != [] then Err(issues)
    else
      var note := Get(body, "note");
      Ok(NewExpense(Get(body, "amount").n, Canonicalise(Get(body, "category").s),
        CoerceDate(Get(body, "date"), host), if note.Undefined? then "" else note.s))
  }

  /** updateExpenseSchema: every body field optional (and checked as for
      creation when present, the note without a default), and a 24-character
      id in the path. */
  function ParseUpdate(body: JsValue, params: JsValue, query: JsValue, host: Host): (r: Result<ExpenseUpdate, seq<Field>>)
    ensures r.Ok? <==> (IsObject(body)
      && (Get(body, "amount").Undefined? || ValidAmount(Get(body, "amount")))
      && (Get(body, "category").Undefined? || CategoryField(Get(body, "category")))
      && DateField(Get(body, "date"), host) && NoteField(Get(body, "note"))
      && IsObject(params) && IdField(Get(params, "id")) && EmptyObjectOrAbsent(query))
    ensures r.Ok? ==> (r.value.id == Get(params, "id").s && |r.value.id| == 24
      && (r.value.amount.Some? <==> !Get(body, "amount").Undefined?)
      && (r.value.amount.Some? ==> r.value.amount.value == Get(body, "amount").n && JsGreater(r.value.amount.value, 0.0))
      && (r.value.category.Some? <==> !Get(body, "category").Undefined?)
      && (r.value.category.Some? ==> r.value.category.value == Canonicalise(Get(body, "category").s))
      && (r.value.date.Some? <==> !Get(body, "date").Undefined?)
      && (r.value.date.Some? ==> Some(r.value.date.value) == CoerceDate(Get(body, "date"), host))
      && (r.value.note.Some? <==> !Get(body, "note").Undefined?)
      && (r.value.note.Some? ==> r.value.note.value == Get(body, "note").s && |r.value.note.value| <= 500))
    ensures (IsObject(body) && Get(body, "amount").Undefined? && Get(body, "category").Undefined?
      && Get(body, "date").Undefined? && Get(body, "note").Undefined?
      && IsObject(params) && IdField(Get(params, "id")) && EmptyObjectOrAbsent(query)) ==>
      r == Ok(ExpenseUpdate(None, None, None, None, Get(params, "id").s))
  {
    var amount, category := Get(body, "amount"), Get(body, "category");
    var issues :=
      (if !IsObject(body) then [Body]
       else Check(amount.Undefined? || ValidAmount(amount), Amount)
            + Check(category.Undefined? || CategoryField(category), CategoryName)
            + Check(DateField(Get(body, "date"), host), Date)
            + Check(NoteField(Get(body, "note")), Note))
      + (if !IsObject(params) then [Params] else Check(IdField(Get(params, "id")), Id))
      + Check(EmptyObjectOrAbsent(query), Query);
    if issues != [] then Err(issues)
    else
      var date := Get(body, "date");
      var note := Get(body, "note");
      Ok(ExpenseUpdate(
        if amount.Undefined? then None else Some(amount.n),
        if category.Undefined? then None else Some(Canonicalise(category.s)),
        if date.Undefined? then None else CoerceDate(date, host),
        if note.Undefined? then None else Some(note.s),
        Get(params, "id").s))
  }

  /** idParamSchema: an optional object body and a 24-character id. */
  function ParseId(body: JsValue, params: JsValue, query: JsValue): (r: Result<string, seq<Field>>)
    ensures r.Ok? <==> EmptyObjectOrAbsent(body) && IsObject(params) && IdField(Get(params, "id")) && EmptyObjectOrAbsent(query)
    ensures r.Ok? ==> |r.value| == 24 && r.value == Get(params, "id").s
  {
    var issues := Check(EmptyObjectOrAbsent(body), Body)
      + (if !IsObject(params) then [Params] else Check(IdField(Get(params, "id")), Id))
      + Check(EmptyObjectOrAbsent(query), Query);
    if issues != [] then Err(issues) else Ok(Get(params, "id").s)
  }
}
