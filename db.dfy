/** The MongoDB collections the routers use, as an in-memory store. A
    collection is a sequence of rows in natural (insertion) order; `find_one`
    is the first matching row, `find` keeps natural order, and a `sort` is
    modelled by a stable insertion sort on the sort key. */
module Db {
  import opened Common
  import opened Utils

  // ---------------------------------------------------------------------
  // Stored documents. A field that some write path can set to null is optional.

  datatype UserDoc = UserDoc(
    googleSub: Option<string>,
    email: Option<string>,
    name: Option<string>,
    avatarUrl: Option<string>,
    approved: Option<bool>,
    createdAt: Option<Time>,
    lastLoginAt: Option<Time>)

  datatype ListDoc = ListDoc(
    userId: string,
    name: Option<string>,
    templateId: Option<string>,
    createdAt: Time,
    updatedAt: Time)

  datatype ItemDoc = ItemDoc(
    userId: string,
    listId: string,
    name: Option<string>,
    qty: Option<real>,
    unit: Option<string>,
    purchased: Option<bool>,
    purchasedAt: Option<Time>,
    sortOrder: Option<int>,
    createdAt: Time,
    updatedAt: Time)

  datatype TemplateDoc = TemplateDoc(
    userId: string,
    name: Option<string>,
    createdAt: Time,
    updatedAt: Time)

  datatype TemplateItemDoc = TemplateItemDoc(
    userId: string,
    templateId: string,
    name: Option<string>,
    qty: Option<real>,
    unit: Option<string>,
    sortOrder: Option<int>,
    createdAt: Time,
    updatedAt: Time)

  /** A stored document with its `_id`. */
  datatype Row<D> = Row(id: ObjectId, doc: D)

  // ---------------------------------------------------------------------
  // Collection operations

  predicate DistinctIds<D>(rows: seq<Row<D>>) {
    forall i, j :: 0 <= i < j < |rows| ==> rows[i].id != rows[j].id
  }

  function Ids<D>(rows: seq<Row<D>>): set<ObjectId> {
    set k | 0 <= k < |rows| :: rows[k].id
  }

  /** `find_one(filter)`: the position of the first row in natural order that
      matches, if any. */
  function FirstMatch<D>(rows: seq<Row<D>>, p: Row<D> -> bool): (r: Option<nat>)
    ensures r.Some? ==> r.value < |rows| && p(rows[r.value])
    ensures r.Some? ==> forall k :: 0 <= k < r.value ==> !p(rows[k])
    ensures r.None? <==> forall k :: 0 <= k < |rows| ==> !p(rows[k])
  {
    if rows == [] then None
    else if p(rows[0]) then Some(0)
    else match FirstMatch(rows[1..], p)
      case None => None
      case Some(k) => Some(k + 1)
  }

  /** `find(filter)`: the matching rows, in natural order. */
  function Filter<D(!new)>(rows: seq<Row<D>>, p: Row<D> -> bool): (r: seq<Row<D>>)
    ensures forall x :: x in r <==> x in rows && p(x)
    ensures |r| <= |rows|
    ensures multiset(r) <= multiset(rows)
  {
    if rows == [] then []
    else
      assert rows == [rows[0]] + rows[1..];
      if p(rows[0]) then [rows[0]] + Filter(rows[1..], p) else Filter(rows[1..], p)
  }

  lemma {:induction false} FilterKeepsDistinct<D(!new)>(rows: seq<Row<D>>, p: Row<D> -> bool)
    requires DistinctIds(rows)
    ensures DistinctIds(Filter(rows, p))
  {
    if rows != [] {
      var tail := rows[1..];
      assert DistinctIds(tail) by {
        forall i, j | 0 <= i < j < |tail| ensures tail[i].id != tail[j].id {
          assert tail[i] == rows[i + 1] && tail[j] == rows[j + 1];
        }
      }
      FilterKeepsDistinct(tail, p);
      var rest := Filter(tail, p);
      if p(rows[0]) {
        forall j | 0 <= j < |rest| ensures rest[j].id != rows[0].id {
          assert rest[j] in tail;
          var m :| 0 <= m < |tail| && tail[m] == rest[j];
          assert rows[m + 1] == rest[j];
        }
        ConsKeepsDistinct(rows[0], rest);
      }
    }
  }

  /** Filtering a collection after an append filters the two parts apart. */
  lemma {:induction false} FilterAppend<D(!new)>(a: seq<Row<D>>, b: seq<Row<D>>, p: Row<D> -> bool)
    ensures Filter(a + b, p) == Filter(a, p) + Filter(b, p)
  {
    if a == [] {
      assert a + b == b;
    } else {
      assert (a + b)[1..] == a[1..] + b;
      FilterAppend(a[1..], b, p);
    }
  }

  /** A filter that every row passes keeps the whole collection. */
  lemma {:induction false} FilterAll<D(!new)>(rows: seq<Row<D>>, p: Row<D> -> bool)
    requires forall k :: 0 <= k < |rows| ==> p(rows[k])
    ensures Filter(rows, p) == rows
  {
    if rows != [] {
      FilterAll(rows[1..], p);
    }
  }

  /** A filter no row passes keeps nothing. */
  lemma FilterNone<D(!new)>(rows: seq<Row<D>>, p: Row<D> -> bool)
    requires forall k :: 0 <= k < |rows| ==> !p(rows[k])
    ensures Filter(rows, p) == []
  {
  }

  lemma ConsKeepsDistinct<D>(x: Row<D>, rest: seq<Row<D>>)
    requires DistinctIds(rest)
    requires forall j :: 0 <= j < |rest| ==> rest[j].id != x.id
    ensures DistinctIds([x] + rest)
  {
    var r := [x] + rest;
    forall i, j | 0 <= i < j < |r| ensures r[i].id != r[j].id {
      if i == 0 {
        assert r[j] == rest[j - 1];
      } else {
        assert r[i] == rest[i - 1] && r[j] == rest[j - 1];
      }
    }
  }

  /** Appending a row whose id is not yet used keeps ids distinct. */
  lemma AppendKeepsDistinct<D>(rows: seq<Row<D>>, extra: seq<Row<D>>)
    requires DistinctIds(rows) && DistinctIds(extra)
    requires forall k :: 0 <= k < |extra| ==> extra[k].id !in Ids(rows)
    ensures DistinctIds(rows + extra)
  {
    var r := rows + extra;
    forall i, j | 0 <= i < j < |r| ensures r[i].id != r[j].id {
      if j >= |rows| && i < |rows| {
        assert r[j] == extra[j - |rows|];
        assert r[i].id in Ids(rows);
      } else if i >= |rows| {
        assert r[i] == extra[i - |rows|] && r[j] == extra[j - |rows|];
      }
    }
  }

  /** The rows `insert_many(docs)` stores when the driver assigns `ids`. */
  function WithIds<D>(ids: seq<ObjectId>, docs: seq<D>): (r: seq<Row<D>>)
    requires |ids| == |docs|
    ensures |r| == |docs|
    ensures forall k :: 0 <= k < |r| ==> r[k] == Row(ids[k], docs[k])
  {
    seq(|docs|, k requires 0 <= k < |docs| => Row(ids[k], docs[k]))
  }

  /** `insert_many` with fresh, pairwise distinct ids keeps ids distinct. */
  lemma InsertManyKeepsDistinct<D>(rows: seq<Row<D>>, ids: seq<ObjectId>, docs: seq<D>)
    requires DistinctIds(rows) && |ids| == |docs|
    requires forall i, j :: 0 <= i < j < |ids| ==> ids[i] != ids[j]
    requires forall k :: 0 <= k < |ids| ==> ids[k] !in Ids(rows)
    ensures DistinctIds(rows + WithIds(ids, docs))
  {
    AppendKeepsDistinct(rows, WithIds(ids, docs));
  }

  /** `delete_one` at a known position. */
  function RemoveAt<D>(rows: seq<Row<D>>, i: nat): (r: seq<Row<D>>)
    requires i < |rows|
    ensures |r| == |rows| - 1
    ensures forall k :: 0 <= k < i ==> r[k] == rows[k]
    ensures forall k :: i <= k < |r| ==> r[k] == rows[k + 1]
  {
    rows[..i] + rows[i + 1..]
  }

  lemma RemoveAtKeepsDistinct<D>(rows: seq<Row<D>>, i: nat)
    requires i < |rows| && DistinctIds(rows)
    ensures DistinctIds(RemoveAt(rows, i))
    ensures Ids(RemoveAt(rows, i)) == Ids(rows) - {rows[i].id}
  {
    var r := RemoveAt(rows, i);
    forall a, b | 0 <= a < b < |r| ensures r[a].id != r[b].id {
      var a', b' := if a < i then a else a + 1, if b < i then b else b + 1;
      assert r[a] == rows[a'] && r[b] == rows[b'];
    }
    forall x | x in Ids(rows) - {rows[i].id} ensures x in Ids(r) {
      var k :| 0 <= k < |rows| && rows[k].id == x;
      if k < i { assert r[k] == rows[k]; } else { assert k > i && r[k - 1] == rows[k]; }
    }
    forall x | x in Ids(r) ensures x in Ids(rows) - {rows[i].id} {
      var k :| 0 <= k < |r| && r[k].id == x;
      if k < i { assert r[k] == rows[k]; } else { assert r[k] == rows[k + 1]; }
    }
  }

  /** Replacing the document at a position keeps the ids. */
  lemma ReplaceKeepsIds<D>(rows: seq<Row<D>>, i: nat, d: D)
    requires i < |rows|
    ensures Ids(rows[i := Row(rows[i].id, d)]) == Ids(rows)
    ensures DistinctIds(rows) ==> DistinctIds(rows[i := Row(rows[i].id, d)])
  {
    var r := rows[i := Row(rows[i].id, d)];
    assert forall k :: 0 <= k < |rows| ==> r[k].id == rows[k].id;
    assert forall x :: x in Ids(r) ==> x in Ids(rows);
    assert forall x :: x in Ids(rows) ==> x in Ids(r);
  }

  // ---------------------------------------------------------------------
  // Sorting. A sort key is compared lexicographically; the keys below put a
  // null `sort_order` first, as BSON orders null before numbers.

  datatype Key = Key(major: int, minor: int, last: int)

  predicate KeyLe(x: Key, y: Key) {
    x.major < y.major
    || (x.major == y.major && (x.minor < y.minor || (x.minor == y.minor && x.last <= y.last)))
  }

  /** `.sort([("sort_order", 1), ("created_at", 1)])` on items. */
  function ItemOrder(d: ItemDoc): Key {
    match d.sortOrder
    case None => Key(0, 0, d.createdAt)
    case Some(n) => Key(1, n, d.createdAt)
  }

  /** `.sort([("sort_order", 1), ("created_at", 1)])` on template items. */
  function TemplateItemOrder(d: TemplateItemDoc): Key {
    match d.sortOrder
    case None => Key(0, 0, d.createdAt)
    case Some(n) => Key(1, n, d.createdAt)
  }

  /** `.sort("updated_at", -1)`: most recently updated first. */
  function ListOrder(d: ListDoc): Key {
    Key(-d.updatedAt, 0, 0)
  }

  function TemplateOrder(d: TemplateDoc): Key {
    Key(-d.updatedAt, 0, 0)
  }

  predicate SortedBy<D>(rows: seq<Row<D>>, key: D -> Key) {
    forall i, j :: 0 <= i < j < |rows| ==> KeyLe(key(rows[i].doc), key(rows[j].doc))
  }

  function Insert<D>(x: Row<D>, rows: seq<Row<D>>, key: D -> Key): (r: seq<Row<D>>)
    requires SortedBy(rows, key)
    ensures SortedBy(r, key)
    ensures multiset(r) == multiset(rows) + multiset{x}
  {
    if rows == [] then [x]
    else if KeyLe(key(x.doc), key(rows[0].doc)) then
      assert forall k :: 0 <= k < |rows| ==> KeyLe(key(rows[0].doc), key(rows[k].doc));
      [x] + rows
    else
      var rest := Insert(x, rows[1..], key);
      assert rows == [rows[0]] + rows[1..];
      assert forall k :: 0 <= k < |rows[1..]| ==> KeyLe(key(rows[0].doc), key(rows[1..][k].doc));
      BoundedMembers(key(rows[0].doc), x, rows[1..], rest, key);
      [rows[0]] + rest
  }

  /** A lower bound of `x` and of every row of `tail` bounds every row of a
      permutation of `tail` plus `x`. */
  lemma BoundedMembers<D>(b: Key, x: Row<D>, tail: seq<Row<D>>, rest: seq<Row<D>>, key: D -> Key)
    requires multiset(rest) == multiset(tail) + multiset{x}
    requires KeyLe(b, key(x.doc))
    requires forall k :: 0 <= k < |tail| ==> KeyLe(b, key(tail[k].doc))
    ensures forall k :: 0 <= k < |rest| ==> KeyLe(b, key(rest[k].doc))
  {
    forall k | 0 <= k < |rest| ensures KeyLe(b, key(rest[k].doc)) {
      assert rest[k] in multiset(rest);
      if rest[k] != x {
        assert rest[k] in multiset(tail);
        var m :| 0 <= m < |tail| && tail[m] == rest[k];
      }
    }
  }

  lemma SameMembers<T>(a: seq<T>, b: seq<T>)
    requires multiset(a) == multiset(b)
    ensures |a| == |b|
    ensures forall k :: 0 <= k < |a| ==> a[k] in b
    ensures forall k :: 0 <= k < |b| ==> b[k] in a
  {
    assert |a| == |multiset(a)| == |multiset(b)| == |b|;
    forall k | 0 <= k < |a| ensures a[k] in b {
      assert a[k] in multiset(a);
    }
    forall k | 0 <= k < |b| ensures b[k] in a {
      assert b[k] in multiset(b);
    }
  }

  /** A sorted permutation of the rows. */
  function SortRows<D>(rows: seq<Row<D>>, key: D -> Key): (r: seq<Row<D>>)
    ensures SortedBy(r, key)
    ensures multiset(r) == multiset(rows)
    ensures |r| == |rows|
    ensures forall k :: 0 <= k < |r| ==> r[k] in rows
    ensures forall k :: 0 <= k < |rows| ==> rows[k] in r
  {
    if rows == [] then []
    else
      assert rows == [rows[0]] + rows[1..];
      var r := Insert(rows[0], SortRows(rows[1..], key), key);
      SameMembers(r, rows);
      r
  }

  // ---------------------------------------------------------------------
  // Store invariants

  /** The unique index on `users.google_sub` (app/db.py:22). */
  predicate UniqueSubs(users: seq<Row<UserDoc>>) {
    forall i, j :: 0 <= i < j < |users| ==> users[i].doc.googleSub != users[j].doc.googleSub
  }

  /** An item is purchased exactly when it carries a purchase time. */
  predicate PurchaseConsistent(d: ItemDoc) {
    Truthy(d.purchased) <==> d.purchasedAt.Some?
  }

  predicate AllPurchaseConsistent(items: seq<Row<ItemDoc>>) {
    forall k :: 0 <= k < |items| ==> PurchaseConsistent(items[k].doc)
  }

  /** The database: one collection per entity. */
  class Store {
    var users: seq<Row<UserDoc>>
    var lists: seq<Row<ListDoc>>
    var items: seq<Row<ItemDoc>>
    var templates: seq<Row<TemplateDoc>>
    var templateItems: seq<Row<TemplateItemDoc>>

    ghost predicate Valid()
      reads this
    {
      && DistinctIds(users) && DistinctIds(lists) && DistinctIds(items)
      && DistinctIds(templates) && DistinctIds(templateItems)
      && UniqueSubs(users)
      && AllPurchaseConsistent(items)
    }

    constructor ()
      ensures Valid()
      ensures users == [] && lists == [] && items == [] && templates == [] && templateItems == []
    {
      users, lists, items, templates, templateItems := [], [], [], [], [];
    }

    /** `lists.insert_one` with a fresh id. */
    method InsertList(row: Row<ListDoc>)
      requires Valid()
      requires row.id !in Ids(lists)
      modifies this`lists
      ensures Valid()
      ensures lists == old(lists) + [row]
    {
      AppendKeepsDistinct(lists, [row]);
      lists := lists + [row];
    }

    /** `templates.insert_one` with a fresh id. */
    method InsertTemplate(row: Row<TemplateDoc>)
      requires Valid()
      requires row.id !in Ids(templates)
      modifies this`templates
      ensures Valid()
      ensures templates == old(templates) + [row]
    {
      AppendKeepsDistinct(templates, [row]);
      templates := templates + [row];
    }
  }
}
