// Validation and SET-parameter construction of the update handler (backend/updateExpense.js).
// Unlike the create validator, all six fields are required here. The handler itself is
// `ExpenseService.ExpenseTable.UpdateExpense`.

module UpdateExpense {
  import opened Js
  import opened Dynamo

  /** A validated update payload: all six fields, the strings trimmed. */
  datatype ExpenseUpdate = ExpenseUpdate(
    name: string,
    category: string,
    date: string,
    paymentMethod: string,
    status: string,
    amount: real)

  /** The fields an update payload must carry, stated without `trim`. */
  predicate UpdatePayloadValid(rt: Runtime, body: JsValue): (ok: bool)
    requires !body.JNull?
    ensures ok ==> body.JObject? && "amount" in body.props
    ensures ok ==> forall key :: key in {"name", "category", "date", "method", "status"} ==>
                     key in body.props && body.props[key].JString?
  {
    && NonBlankString(Property(body, "name"))
    && NonBlankString(Property(body, "category"))
    && NonBlankString(Property(body, "date"))
    && NonBlankString(Property(body, "method"))
    && NonBlankString(Property(body, "status"))
    && FiniteNumber(rt, Property(body, "amount")).Some?
  }

  /** The update validator: it accepts exactly the payloads whose five string fields are
      non-blank strings and whose amount is finite, and yields their trimmed values.
      `None` is the 400 "Invalid expense payload". */
  function ValidateUpdate(rt: Runtime, body: JsValue): (r: Option<ExpenseUpdate>)
    requires !body.JNull?
    ensures r.Some? <==> UpdatePayloadValid(rt, body)
    ensures r.Some? ==>
              && r.value.name == Trim(Property(body, "name").value.s)
              && r.value.category == Trim(Property(body, "category").value.s)
              && r.value.date == Trim(Property(body, "date").value.s)
              && r.value.paymentMethod == Trim(Property(body, "method").value.s)
              && r.value.status == Trim(Property(body, "status").value.s)
              && Some(r.value.amount) == FiniteNumber(rt, Property(body, "amount"))
  {
    var nameValue := TrimmedString(Property(body, "name"));
    var categoryValue := TrimmedString(Property(body, "category"));
    var dateValue := TrimmedString(Property(body, "date"));
    var methodValue := TrimmedString(Property(body, "method"));
    var statusValue := TrimmedString(Property(body, "status"));
    var amountNumber := FiniteNumber(rt, Property(body, "amount"));
    if nameValue == "" || categoryValue == "" || dateValue == "" || methodValue == ""
       || statusValue == "" || amountNumber.None?
    then None
    else Some(ExpenseUpdate(nameValue, categoryValue, dateValue, methodValue, statusValue,
                            amountNumber.value))
  }

  /** The SET clause `#name = :name, …, #amount = :amount`, as attribute name to new value. */
  function SetValues(rt: Runtime, u: ExpenseUpdate): (values: Item)
    ensures values.Keys == {"name", "category", "date", "method", "status", "amount"}
    ensures Listable(values)
    ensures && values["name"] == S(u.name) && values["category"] == S(u.category)
            && values["date"] == S(u.date) && values["method"] == S(u.paymentMethod)
            && values["status"] == S(u.status) && values["amount"] == N(rt.render(u.amount))
  {
    map["name" := S(u.name), "category" := S(u.category), "date" := S(u.date),
        "method" := S(u.paymentMethod), "status" := S(u.status),
        "amount" := N(rt.render(u.amount))]
  }

  /** The write of a successful update: all six attributes at once on the item at `id`,
      whether or not it existed; every other attribute of it and every other item are kept,
      and a well-formed table stays well-formed. */
  lemma UpdateWriteSpec(t: Table, id: string, rt: Runtime, u: ExpenseUpdate)
    ensures var r := UpdateItem(t, id, SetValues(rt, u));
      && r.Keys == t.Keys + {id}
      && (forall k :: k in t && k != id ==> r[k] == t[k])
      && r[id]["name"] == S(u.name) && r[id]["category"] == S(u.category)
      && r[id]["date"] == S(u.date) && r[id]["method"] == S(u.paymentMethod)
      && r[id]["status"] == S(u.status) && r[id]["amount"] == N(rt.render(u.amount))
      && (id in t ==> forall a :: a in t[id] && a !in SetValues(rt, u) ==> r[id][a] == t[id][a])
      && (id !in t ==> r[id].Keys == {"id", "name", "category", "date", "method", "status", "amount"}
                       && r[id]["id"] == S(id))
      && (WellFormed(t) ==> WellFormed(r))
  {
    var r := UpdateItem(t, id, SetValues(rt, u));
    if WellFormed(t) {
      forall k | k in r ensures KeyedBy(r[k], k) && Listable(r[k]) {
        if k == id {
          assert "id" in r[id] && r[id]["id"] == S(id);
        }
      }
    }
  }
}
