// The three handlers that change the "Expenses" table, as methods of the object that owns it
// (backend/addExpense.js, backend/updateExpense.js, backend/deleteExpense.js). The store call
// each one makes is the matching function of module Dynamo; whether that call fails is the
// parameter `storeFailure` (the error message), and `uuidv4()` is the parameter `newId`.

module ExpenseService {
  import opened Js
  import opened Dynamo
  import opened Lambda
  import opened AddExpense
  import opened UpdateExpense

  const ExpenseAdded: Outcome := Respond(200, Message("Expense added!"))

  function Updated(id: string): Outcome {
    Respond(200, Message("Expense " + id + " updated"))
  }

  function Deleted(id: string): Outcome {
    Respond(200, Message("Expense " + id + " deleted"))
  }

  class ExpenseTable {
    /** The items of the table, by `id`. */
    var items: Table

    constructor(initial: Table)
      ensures items == initial
    {
      items := initial;
    }

    /** `addExpense` handler. A body that is not JSON, or is JSON `null`, throws; an invalid
        payload is a 400; otherwise the item is put under the generated id and a failing put
        throws. Nothing is written unless the answer is 200. */
    method AddExpense(rt: Runtime, event: Event, newId: string, storeFailure: Option<string>)
      returns (out: Outcome)
      modifies this
      ensures ParseBody(rt, event.body).None? ==> out == Throw(SyntaxError) && items == old(items)
      ensures ParseBody(rt, event.body) == Some(JNull) ==> out == Throw(TypeError) && items == old(items)
      ensures ParseBody(rt, event.body).Some? && !ParseBody(rt, event.body).value.JNull? ==>
                var body := ParseBody(rt, event.body).value;
                if !CreatePayloadValid(rt, body) then
                  out == InvalidPayload && items == old(items)
                else if storeFailure.Some? then
                  out == Throw(StoreError(storeFailure.value)) && items == old(items)
                else
                  out == ExpenseAdded
                  && items == PutItem(old(items), newId, NewItem(rt, newId, ValidateCreate(rt, body).value))
      ensures WellFormed(old(items)) ==> WellFormed(items)
    {
      var parsed := ParseBody(rt, event.body);
      if parsed.None? {
        return Throw(SyntaxError);
      }
      var body := parsed.value;
      if body.JNull? {
        return Throw(TypeError);
      }
      var amountValue := FiniteNumber(rt, Property(body, "amount"));
      var categoryValue := TrimmedString(Property(body, "category"));
      var dateValue := TrimmedString(Property(body, "date"));
      if amountValue.None? || categoryValue == "" || dateValue == "" {
        return InvalidPayload;
      }

      var e := NewExpense(amountValue.value, categoryValue, dateValue,
                          OptionalField(Property(body, "name")),
                          OptionalField(Property(body, "method")),
                          OptionalField(Property(body, "status")));
      out := PutExpense(rt, newId, e, storeFailure);
    }

    /** The second half of `addExpense`: builds the item from the validated payload, adding
        each optional attribute only when present, and puts it. A failing put throws. */
    method PutExpense(rt: Runtime, newId: string, e: NewExpense, storeFailure: Option<string>)
      returns (out: Outcome)
      modifies this
      ensures storeFailure.Some? ==> out == Throw(StoreError(storeFailure.value)) && items == old(items)
      ensures storeFailure.None? ==> out == ExpenseAdded && items == PutItem(old(items), newId, NewItem(rt, newId, e))
      ensures WellFormed(old(items)) ==> WellFormed(items)
    {
      var item := map["id" := S(newId), "amount" := N(rt.render(e.amount)),
                      "category" := S(e.category), "date" := S(e.date)];
      if e.name.Some? {
        item := item["name" := S(e.name.value)];
      }
      if e.paymentMethod.Some? {
        item := item["method" := S(e.paymentMethod.value)];
      }
      if e.status.Some? {
        item := item["status" := S(e.status.value)];
      }

      if storeFailure.Some? {
        return Throw(StoreError(storeFailure.value));
      }
      if WellFormed(items) {
        CreateKeepsWellFormed(items, rt, e, newId);
      }
      items := PutItem(items, newId, item);
      out := ExpenseAdded;
    }

    /** `updateExpense` handler. The id is checked before the body is read; a body that is not
        JSON is a 400, JSON `null` throws, an invalid payload is a 400; otherwise the six
        attributes are SET on the item at `id` in one write, and a failing write is a 500. */
    method UpdateExpense(rt: Runtime, event: Event, storeFailure: Option<string>)
      returns (out: Outcome)
      modifies this
      ensures MissingId(event.pathId) ==> out == MissingIdParameter && items == old(items)
      ensures !MissingId(event.pathId) && ParseBody(rt, event.body).None? ==>
                out == Respond(400, Message("Invalid JSON payload")) && items == old(items)
      ensures !MissingId(event.pathId) && ParseBody(rt, event.body) == Some(JNull) ==>
                out == Throw(TypeError) && items == old(items)
      ensures !MissingId(event.pathId) && ParseBody(rt, event.body).Some?
              && !ParseBody(rt, event.body).value.JNull? ==>
                var id, body := event.pathId.value, ParseBody(rt, event.body).value;
                if !UpdatePayloadValid(rt, body) then
                  out == InvalidPayload && items == old(items)
                else if storeFailure.Some? then
                  out == Respond(500, MessageWithError("Update failed", storeFailure.value))
                  && items == old(items)
                else
                  out == Updated(id)
                  && items == UpdateItem(old(items), id, SetValues(rt, ValidateUpdate(rt, body).value))
      ensures WellFormed(old(items)) ==> WellFormed(items)
    {
      if MissingId(event.pathId) {
        return MissingIdParameter;
      }
      var id := event.pathId.value;

      var parsed := ParseBody(rt, event.body);
      if parsed.None? {
        return Respond(400, Message("Invalid JSON payload"));
      }
      var body := parsed.value;
      if body.JNull? {
        return Throw(TypeError);
      }
      var checked := ValidateUpdate(rt, body);
      if checked.None? {
        return InvalidPayload;
      }

      if storeFailure.Some? {
        return Respond(500, MessageWithError("Update failed", storeFailure.value));
      }
      if WellFormed(items) {
        UpdateWriteSpec(items, id, rt, checked.value);
      }
      items := UpdateItem(items, id, SetValues(rt, checked.value));
      out := Updated(id);
    }

    /** `deleteExpense` handler: after the id check, an unconditional delete by key; a failing
        delete is a 500. */
    method DeleteExpense(event: Event, storeFailure: Option<string>) returns (out: Outcome)
      modifies this
      ensures MissingId(event.pathId) ==> out == MissingIdParameter && items == old(items)
      ensures !MissingId(event.pathId) && storeFailure.Some? ==>
                out == Respond(500, MessageWithError("Delete failed", storeFailure.value))
                && items == old(items)
      ensures !MissingId(event.pathId) && storeFailure.None? ==>
                out == Deleted(event.pathId.value)
                && items == DeleteItem(old(items), event.pathId.value)
      ensures WellFormed(old(items)) ==> WellFormed(items)
    {
      if MissingId(event.pathId) {
        return MissingIdParameter;
      }
      var id := event.pathId.value;
      if storeFailure.Some? {
        return Respond(500, MessageWithError("Delete failed", storeFailure.value));
      }
      if WellFormed(items) {
        DeleteKeepsWellFormed(items, id);
      }
      items := DeleteItem(items, id);
      out := Deleted(id);
    }
  }
}
