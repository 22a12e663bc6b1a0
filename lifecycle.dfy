// How the handlers compose over one table: what a listing shows after a create, an update or
// a delete, that every write keeps the table listable, and how the two validators relate.

module Lifecycle {
  import opened Js
  import opened Dynamo
  import opened Lambda
  import opened AddExpense
  import opened UpdateExpense
  import opened GetExpenses

  /** Create, then list: in whatever order the scan returns the table, the listing succeeds,
      has one entry per item, and the entry for the new id carries the rendered amount and
      the (trimmed) category and date of the validated payload. */
  lemma CreateThenList(t: Table, rt: Runtime, e: NewExpense, id: string, order: seq<string>)
    requires WellFormed(t)
    requires IsScanOrder(PutItem(t, id, NewItem(rt, id, e)), order)
    ensures var out := ListExpenses(Scanned(Scan(PutItem(t, id, NewItem(rt, id, e)), order)));
      && out.Respond? && out.statusCode == 200 && out.body.Expenses?
      && |out.body.expenses| == |t.Keys + {id}|
      && id in order
      && forall i :: 0 <= i < |order| && order[i] == id ==>
           out.body.expenses[i] == PublicExpense(Some(id), Some(rt.render(e.amount)),
                                                 Some(e.category), Some(e.date))
  {
    var t' := PutItem(t, id, NewItem(rt, id, e));
    CreateKeepsWellFormed(t, rt, e, id);
    ListWellFormed(t', order);
    var items := Scan(t', order);
    ListListable(items);
    forall i | 0 <= i < |order| && order[i] == id
      ensures ListExpenses(Scanned(items)).body.expenses[i] ==
                PublicExpense(Some(id), Some(rt.render(e.amount)), Some(e.category), Some(e.date))
    {
      assert items[i] == t'[id];
    }
  }

  /** Update, then list: the entry for `id` shows the new amount, category and date together,
      never a mix with the old values, whether or not the item existed before. */
  lemma UpdateThenList(t: Table, rt: Runtime, u: ExpenseUpdate, id: string, order: seq<string>)
    requires WellFormed(t)
    requires IsScanOrder(UpdateItem(t, id, SetValues(rt, u)), order)
    ensures var out := ListExpenses(Scanned(Scan(UpdateItem(t, id, SetValues(rt, u)), order)));
      && out.Respond? && out.statusCode == 200 && out.body.Expenses?
      && |out.body.expenses| == |t.Keys + {id}|
      && id in order
      && forall i :: 0 <= i < |order| && order[i] == id ==>
           out.body.expenses[i] == PublicExpense(Some(id), Some(rt.render(u.amount)),
                                                 Some(u.category), Some(u.date))
  {
    var t' := UpdateItem(t, id, SetValues(rt, u));
    assert WellFormed(t') && t'[id]["amount"] == N(rt.render(u.amount))
           && t'[id]["category"] == S(u.category) && t'[id]["date"] == S(u.date) by {
      UpdateWriteSpec(t, id, rt, u);
    }
    ListWellFormed(t', order);
    var items := Scan(t', order);
    ListListable(items);
    forall i | 0 <= i < |order| && order[i] == id
      ensures ListExpenses(Scanned(items)).body.expenses[i] ==
                PublicExpense(Some(id), Some(rt.render(u.amount)), Some(u.category), Some(u.date))
    {
      assert items[i] == t'[id];
    }
  }

  /** Delete, then list: no entry has the deleted id, and every other item is still listed. */
  lemma DeleteThenList(t: Table, id: string, order: seq<string>)
    requires WellFormed(t)
    requires IsScanOrder(DeleteItem(t, id), order)
    ensures var out := ListExpenses(Scanned(Scan(DeleteItem(t, id), order)));
      && out.Respond? && out.statusCode == 200 && out.body.Expenses?
      && |out.body.expenses| == |t.Keys - {id}|
      && (forall i :: 0 <= i < |order| ==> out.body.expenses[i].id != Some(id))
      && (forall k :: k in t && k != id ==> k in order)
  {
    var t' := DeleteItem(t, id);
    DeleteKeepsWellFormed(t, id);
    ListWellFormed(t', order);
  }

  /** The update validator is the stricter one: whatever it accepts, create accepts too. */
  lemma UpdateValidImpliesCreateValid(rt: Runtime, body: JsValue)
    requires !body.JNull?
    ensures UpdatePayloadValid(rt, body) ==> CreatePayloadValid(rt, body)
  {
  }

  /** The two validators differ: a payload with only amount, category and date is a create
      but not an update. */
  lemma ValidatorsDiffer(rt: Runtime, amount: JsValue)
    requires rt.toFinite(amount).Some?
    ensures var body := JObject(map["amount" := amount, "category" := JString("Food"),
                                    "date" := JString("2024-03-01")]);
      CreatePayloadValid(rt, body) && !UpdatePayloadValid(rt, body)
  {
    var body := JObject(map["amount" := amount, "category" := JString("Food"),
                            "date" := JString("2024-03-01")]);
    assert !IsWhitespace('F') && JString("Food").s[0] == 'F';
    assert !IsWhitespace('2') && JString("2024-03-01").s[0] == '2';
    assert Property(body, "name").None?;
  }

  /** An update without a body reads `{}` and is rejected as an invalid payload. */
  lemma UpdateWithoutBodyInvalid(rt: Runtime)
    ensures ParseBody(rt, None) == Some(JObject(map[]))
    ensures !UpdatePayloadValid(rt, JObject(map[]))
  {
    assert Property(JObject(map[]), "name").None?;
  }
}
