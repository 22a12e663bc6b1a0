// The "Expenses" table as the handlers see it: items keyed by their `id` string, each item a
// map from attribute name to a typed attribute value, and the four requests the handlers send
// (put, update with SET, delete, scan) as functions on the whole table.

module Dynamo {

  /** An attribute value: `{ S: … }` for a string, `{ N: … }` for a number written as a string. */
  datatype AttributeValue = S(s: string) | N(n: string)

  type Item = map<string, AttributeValue>

  /** The table, indexed by the partition key `id`. */
  type Table = map<string, Item>

  /** The stored item carries its own key as the `id` attribute. */
  predicate KeyedBy(item: Item, key: string) {
    "id" in item && item["id"] == S(key)
  }

  /** An item the listing can read: a numeric `amount` and string `category` and `date`. */
  predicate Listable(item: Item) {
    && "amount" in item && item["amount"].N?
    && "category" in item && item["category"].S?
    && "date" in item && item["date"].S?
  }

  /** Every item is stored under its own id and is listable. */
  predicate WellFormed(t: Table) {
    forall key :: key in t ==> KeyedBy(t[key], key) && Listable(t[key])
  }

  /** `PutItem`: writes the whole item under `key`, replacing any item stored there. */
  function PutItem(t: Table, key: string, item: Item): (r: Table)
    ensures r.Keys == t.Keys + {key} && r[key] == item
    ensures forall k :: k in t && k != key ==> r[k] == t[k]
  {
    t[key := item]
  }

  /** `UpdateItem` with `SET a1 = v1, …` and no condition: the attributes in `values` are
      overwritten on the item at `key`; an absent item is created from its key alone first. */
  function UpdateItem(t: Table, key: string, values: Item): (r: Table)
    ensures r.Keys == t.Keys + {key}
    ensures forall k :: k in t && k != key ==> r[k] == t[k]
    ensures r[key].Keys == values.Keys + (if key in t then t[key].Keys else {"id"})
    ensures forall a :: a in values ==> r[key][a] == values[a]
    ensures forall a :: a in r[key] && a !in values ==>
              if key in t then r[key][a] == t[key][a] else r[key][a] == S(key)
  {
    var base := if key in t then t[key] else map["id" := S(key)];
    t[key := base + values]
  }

  /** `DeleteItem` with no condition: the key is gone, whether or not it was there. */
  function DeleteItem(t: Table, key: string): (r: Table)
    ensures r.Keys == t.Keys - {key}
    ensures forall k :: k in r ==> r[k] == t[k]
  {
    t - {key}
  }

  /** The keys one page of a `Scan` visits: keys of the table, none twice. A single `Scan`
      request returns one page, which need not reach every key. */
  predicate IsScanPage(t: Table, order: seq<string>) {
    && (forall i :: 0 <= i < |order| ==> order[i] in t)
    && (forall i, j :: 0 <= i < j < |order| ==> order[i] != order[j])
  }

  /** A page that reaches every key: the whole table in one response. */
  predicate IsScanOrder(t: Table, order: seq<string>) {
    IsScanPage(t, order) && (forall k :: k in t ==> k in order)
  }

  /** The items a `Scan` returns when it visits the keys in `order`. */
  function Scan(t: Table, order: seq<string>): (items: seq<Item>)
    requires forall i :: 0 <= i < |order| ==> order[i] in t
    ensures |items| == |order|
    ensures forall i :: 0 <= i < |order| ==> items[i] == t[order[i]]
  {
    seq(|order|, i requires 0 <= i < |order| => t[order[i]])
  }

  /** A complete scan lists exactly as many keys as the table holds. */
  lemma ScanOrderCoversTable(t: Table, order: seq<string>)
    requires IsScanOrder(t, order)
    ensures |order| == |t|
  {
    var keys := set i | 0 <= i < |order| :: order[i];
    assert keys == t.Keys;
    DistinctSize(order);
  }

  /** A page never lists more keys than the table holds. */
  lemma ScanPageBounded(t: Table, order: seq<string>)
    requires IsScanPage(t, order)
    ensures |order| <= |t|
  {
    var keys := set i | 0 <= i < |order| :: order[i];
    assert keys <= t.Keys;
    DistinctSize(order);
    SubsetSize(keys, t.Keys);
  }

  /** A subset is no larger than its superset. */
  lemma {:induction false} SubsetSize(a: set<string>, b: set<string>)
    requires a <= b
    ensures |a| <= |b|
  {
    if a != {} {
      var x :| x in a;
      SubsetSize(a - {x}, b - {x});
    }
  }

  /** Distinct elements: the set of a sequence is as large as the sequence. */
  lemma {:induction false} DistinctSize(s: seq<string>)
    requires forall i, j :: 0 <= i < j < |s| ==> s[i] != s[j]
    ensures |set i | 0 <= i < |s| :: s[i]| == |s|
  {
    if s != [] {
      var last := s[|s| - 1];
      var init := s[..|s| - 1];
      DistinctSize(init);
      var a := set i | 0 <= i < |init| :: init[i];
      var b := set i | 0 <= i < |s| :: s[i];
      assert b == a + {last};
      assert last !in a;
    }
  }

  /** A delete keeps every remaining item listable and stored under its own id. */
  lemma DeleteKeepsWellFormed(t: Table, key: string)
    requires WellFormed(t)
    ensures WellFormed(DeleteItem(t, key))
  {
    var r := DeleteItem(t, key);
    forall k | k in r ensures KeyedBy(r[k], k) && Listable(r[k]) {
      assert r[k] == t[k];
    }
  }

  /** Deleting twice is deleting once. */
  lemma DeleteIdempotent(t: Table, key: string)
    ensures DeleteItem(DeleteItem(t, key), key) == DeleteItem(t, key)
  {
  }

  /** Deleting an absent key leaves the table as it was. */
  lemma DeleteAbsent(t: Table, key: string)
    requires key !in t
    ensures DeleteItem(t, key) == t
  {
  }

  /** A put under a key not in use adds exactly one item. */
  lemma PutFreshAddsOne(t: Table, key: string, item: Item)
    requires key !in t
    ensures |PutItem(t, key, item)| == |t| + 1
  {
    assert PutItem(t, key, item).Keys == t.Keys + {key};
  }
}
