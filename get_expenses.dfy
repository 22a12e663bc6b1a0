// The list handler (backend/getExpenses.js): a projection of the scanned items onto
// `{ id, amount, category, date }`.

module GetExpenses {
  import opened Js
  import opened Dynamo
  import opened Lambda

  /** `v.S`: `undefined` when the value is a number. */
  function StringOf(v: AttributeValue): Option<string> {
    if v.S? then Some(v.s) else None
  }

  /** `v.N`: `undefined` when the value is a string. */
  function NumberStringOf(v: AttributeValue): Option<string> {
    if v.N? then Some(v.n) else None
  }

  /** The four attributes the projection reads through. Reading `.S` or `.N` of a missing
      attribute reads a property of `undefined`, which throws. */
  predicate HasListedAttributes(item: Item) {
    "id" in item && "amount" in item && "category" in item && "date" in item
  }

  /** `{ id: item.id.S, amount: item.amount.N, category: item.category.S, date: item.date.S }`. */
  function Project(item: Item): (r: PublicExpense)
    requires HasListedAttributes(item)
    ensures r.id.Some? <==> item["id"].S?
    ensures r.amount.Some? <==> item["amount"].N?
    ensures r.category.Some? <==> item["category"].S?
    ensures r.date.Some? <==> item["date"].S?
    ensures Listable(item) && item["id"].S? ==>
              r == PublicExpense(Some(item["id"].s), Some(item["amount"].n),
                                 Some(item["category"].s), Some(item["date"].s))
  {
    PublicExpense(StringOf(item["id"]), NumberStringOf(item["amount"]),
                  StringOf(item["category"]), StringOf(item["date"]))
  }

  /** `items.map(Project)`: `None` when some item makes the projection throw. */
  function ProjectAll(items: seq<Item>): (r: Option<seq<PublicExpense>>)
    ensures r.Some? <==> forall i :: 0 <= i < |items| ==> HasListedAttributes(items[i])
    ensures r.Some? ==> |r.value| == |items|
    ensures r.Some? ==> forall i :: 0 <= i < |items| ==> r.value[i] == Project(items[i])
  {
    if items == [] then Some([])
    else if !HasListedAttributes(items[0]) then None
    else
      var rest := ProjectAll(items[1..]);
      if rest.None? then None
      else Some([Project(items[0])] + rest.value)
  }

  /** The outcome of a `Scan` request: the items, or the error it failed with. */
  datatype ScanResult = Scanned(items: seq<Item>) | ScanFailed(message: string)

  /** The list handler: neither a failed scan nor an unreadable item is caught. */
  function ListExpenses(scan: ScanResult): (out: Outcome)
    ensures out.Respond? ==> scan.Scanned? && out.statusCode == 200 && out.body.Expenses?
    ensures out.Throw? && scan.Scanned? ==> out.error == TypeError
  {
    match scan
    case ScanFailed(msg) => Throw(StoreError(msg))
    case Scanned(items) =>
      var projected := ProjectAll(items);
      if projected.None? then Throw(TypeError) else Respond(200, Expenses(projected.value))
  }

  /** A successful listing answers 200 with one entry per scanned item, in scan order, each
      carrying the item's id, category and date strings and its amount's number string; it
      throws a TypeError exactly when some item lacks one of the four attributes. */
  lemma ListExpensesSpec(items: seq<Item>)
    ensures ListExpenses(Scanned(items)).Throw? <==>
              exists i :: 0 <= i < |items| && !HasListedAttributes(items[i])
    ensures ListExpenses(Scanned(items)).Throw? ==> ListExpenses(Scanned(items)).error == TypeError
    ensures ListExpenses(Scanned(items)).Respond? ==>
              var out := ListExpenses(Scanned(items));
              && out.statusCode == 200 && out.body.Expenses?
              && |out.body.expenses| == |items|
              && forall i :: 0 <= i < |items| ==>
                   var e := out.body.expenses[i];
                   && e.id == StringOf(items[i]["id"])
                   && e.amount == NumberStringOf(items[i]["amount"])
                   && e.category == StringOf(items[i]["category"])
                   && e.date == StringOf(items[i]["date"])
  {
  }

  /** A failed scan is not caught: the handler rethrows the store's error. */
  lemma ListScanFailure(message: string)
    ensures ListExpenses(ScanFailed(message)) == Throw(StoreError(message))
  {
  }

  /** On listable items every entry is fully defined: the stored strings and the stored
      number string, with no numeric conversion. */
  lemma ListListable(items: seq<Item>)
    requires forall i :: 0 <= i < |items| ==> Listable(items[i]) && "id" in items[i] && items[i]["id"].S?
    ensures ListExpenses(Scanned(items)).Respond?
    ensures forall i :: 0 <= i < |items| ==>
              Listable(items[i]) && items[i]["id"].S? &&
              ListExpenses(Scanned(items)).body.expenses[i] ==
                PublicExpense(Some(items[i]["id"].s), Some(items[i]["amount"].n),
                              Some(items[i]["category"].s), Some(items[i]["date"].s))
  {
  }

  /** The handler reads one page of the scan: on a well-formed table it never throws and
      lists exactly the keys that page visits, in its order, which may be fewer than the
      table holds. */
  lemma ListPage(t: Table, order: seq<string>)
    requires WellFormed(t) && IsScanPage(t, order)
    ensures ListExpenses(Scanned(Scan(t, order))).Respond?
    ensures |ListExpenses(Scanned(Scan(t, order))).body.expenses| == |order| <= |t|
    ensures forall i :: 0 <= i < |order| ==>
              ListExpenses(Scanned(Scan(t, order))).body.expenses[i].id == Some(order[i])
  {
    var items := Scan(t, order);
    ListListable(items);
    ScanPageBounded(t, order);
  }

  /** When that page is the whole table, listing a well-formed table lists every key once. */
  lemma ListWellFormed(t: Table, order: seq<string>)
    requires WellFormed(t) && IsScanOrder(t, order)
    ensures ListExpenses(Scanned(Scan(t, order))).Respond?
    ensures |ListExpenses(Scanned(Scan(t, order))).body.expenses| == |t|
    ensures forall i :: 0 <= i < |order| ==>
              ListExpenses(Scanned(Scan(t, order))).body.expenses[i].id == Some(order[i])
  {
    ListPage(t, order);
    ScanOrderCoversTable(t, order);
  }
}
