// Validation and item construction of the create handler (backend/addExpense.js). The handler
// itself, which writes the item, is `ExpenseService.ExpenseTable.AddExpense`.

module AddExpense {
  import opened Js
  import opened Dynamo

  /** A validated create payload: the three required fields and the three optional ones,
      all trimmed. */
  datatype NewExpense = NewExpense(
    amount: real,
    category: string,
    date: string,
    name: Option<string>,
    paymentMethod: Option<string>,
    status: Option<string>)

  /** An optional field: kept, trimmed, only when it is a string that is not blank. */
  function OptionalField(v: Option<JsValue>): (r: Option<string>)
    ensures r.Some? <==> NonBlankString(v)
    ensures r.Some? ==> r.value == Trim(v.value.s) && r.value != []
  {
    if v.Some? && v.value.JString? then
      TrimEmptyIffBlank(v.value.s);
      if Trim(v.value.s) != "" then Some(Trim(v.value.s)) else None
    else None
  }

  /** The fields a create payload must carry, stated without `trim`. */
  predicate CreatePayloadValid(rt: Runtime, body: JsValue): (ok: bool)
    requires !body.JNull?
    ensures ok ==> body.JObject? && "amount" in body.props
    ensures ok ==> "category" in body.props && body.props["category"].JString?
    ensures ok ==> "date" in body.props && body.props["date"].JString?
  {
    && FiniteNumber(rt, Property(body, "amount")).Some?
    && NonBlankString(Property(body, "category"))
    && NonBlankString(Property(body, "date"))
  }

  /** The create validator: it accepts exactly the payloads with a finite `amount` and a
      non-blank string `category` and `date`, and then yields their trimmed values; `name`,
      `method` and `status` are optional. `None` is the 400 "Invalid expense payload". */
  function ValidateCreate(rt: Runtime, body: JsValue): (r: Option<NewExpense>)
    requires !body.JNull?
    ensures r.Some? <==> CreatePayloadValid(rt, body)
    ensures r.Some? ==>
              && Some(r.value.amount) == FiniteNumber(rt, Property(body, "amount"))
              && r.value.category == Trim(Property(body, "category").value.s)
              && r.value.date == Trim(Property(body, "date").value.s)
              && r.value.name == OptionalField(Property(body, "name"))
              && r.value.paymentMethod == OptionalField(Property(body, "method"))
              && r.value.status == OptionalField(Property(body, "status"))
  {
    var amountValue := FiniteNumber(rt, Property(body, "amount"));
    var categoryValue := TrimmedString(Property(body, "category"));
    var dateValue := TrimmedString(Property(body, "date"));
    if amountValue.None? || categoryValue == "" || dateValue == "" then None
    else Some(NewExpense(amountValue.value, categoryValue, dateValue,
                         OptionalField(Property(body, "name")),
                         OptionalField(Property(body, "method")),
                         OptionalField(Property(body, "status"))))
  }

  /** The item written for a validated payload under the generated id. */
  function NewItem(rt: Runtime, id: string, e: NewExpense): (item: Item)
    ensures KeyedBy(item, id) && Listable(item)
    ensures item["amount"] == N(rt.render(e.amount))
    ensures item["category"] == S(e.category) && item["date"] == S(e.date)
    ensures "name" in item <==> e.name.Some?
    ensures "method" in item <==> e.paymentMethod.Some?
    ensures "status" in item <==> e.status.Some?
    ensures e.name.Some? ==> item["name"] == S(e.name.value)
    ensures e.paymentMethod.Some? ==> item["method"] == S(e.paymentMethod.value)
    ensures e.status.Some? ==> item["status"] == S(e.status.value)
    ensures item.Keys <= {"id", "amount", "category", "date", "name", "method", "status"}
  {
    var base := map["id" := S(id), "amount" := N(rt.render(e.amount)),
                    "category" := S(e.category), "date" := S(e.date)];
    var withName := if e.name.Some? then base["name" := S(e.name.value)] else base;
    var withMethod := if e.paymentMethod.Some? then withName["method" := S(e.paymentMethod.value)] else withName;
    if e.status.Some? then withMethod["status" := S(e.status.value)] else withMethod
  }

  /** What a successful create stores, stated against the request body: the generated id,
      the rendered amount, the trimmed category and date, and each optional field exactly
      when it is a non-blank string, trimmed. */
  lemma CreatedItemSpec(rt: Runtime, body: JsValue, id: string)
    requires !body.JNull? && CreatePayloadValid(rt, body)
    ensures var item := NewItem(rt, id, ValidateCreate(rt, body).value);
      && item["id"] == S(id)
      && item["amount"] == N(rt.render(FiniteNumber(rt, Property(body, "amount")).value))
      && item["category"] == S(Trim(Property(body, "category").value.s))
      && item["date"] == S(Trim(Property(body, "date").value.s))
      && (forall f :: f in {"name", "method", "status"} ==>
            (f in item <==> NonBlankString(Property(body, f)))
            && (f in item ==> item[f] == S(Trim(Property(body, f).value.s))))
      && item.Keys <= {"id", "amount", "category", "date", "name", "method", "status"}
  {
  }

  /** An `id` in the payload plays no part: the validated payload, and so the item, is the
      same with or without it. */
  lemma CreateIgnoresPayloadId(rt: Runtime, props: map<string, JsValue>, v: JsValue)
    ensures ValidateCreate(rt, JObject(props["id" := v])) == ValidateCreate(rt, JObject(props - {"id"}))
  {
    PropertyBesideId(props, v, "amount");
    PropertyBesideId(props, v, "category");
    PropertyBesideId(props, v, "date");
    PropertyBesideId(props, v, "name");
    PropertyBesideId(props, v, "method");
    PropertyBesideId(props, v, "status");
  }

  lemma PropertyBesideId(props: map<string, JsValue>, v: JsValue, key: string)
    requires key != "id"
    ensures Property(JObject(props["id" := v]), key) == Property(JObject(props - {"id"}), key)
  {
  }

  /** A create keeps every item listable and stored under its own id. */
  lemma CreateKeepsWellFormed(t: Table, rt: Runtime, e: NewExpense, id: string)
    requires WellFormed(t)
    ensures WellFormed(PutItem(t, id, NewItem(rt, id, e)))
  {
    var r := PutItem(t, id, NewItem(rt, id, e));
    forall k | k in r ensures KeyedBy(r[k], k) && Listable(r[k]) {
      if k != id {
        assert r[k] == t[k];
      }
    }
  }
}
