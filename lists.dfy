/** app/routers/lists.py: the caller's shopping lists and the items inside
    one list. */
module Lists {
  import opened Common
  import opened Utils
  import opened Schemas
  import opened Db

  predicate OwnsList(lists: seq<Row<ListDoc>>, oid: ObjectId, userId: string) {
    exists k :: 0 <= k < |lists| && lists[k].id == oid && lists[k].doc.userId == userId
  }

  /** `_get_list_or_404`: the position of the caller's list, 400 for a
      malformed id, 404 when it is missing or belongs to someone else. */
  function ListOr404(lists: seq<Row<ListDoc>>, listId: string, userId: string): (r: Result<nat>)
    ensures !IsObjectIdString(listId) ==> r == Err(HttpError(BadRequest, "Invalid list_id."))
    ensures IsObjectIdString(listId) ==>
      var oid := ToObjectId(listId, "list_id").value;
      && (r.Ok? <==> OwnsList(lists, oid, userId))
      && (r.Err? ==> r.error == HttpError(NotFound, "List not found."))
      && (r.Ok? ==> r.value < |lists| && lists[r.value].id == oid && lists[r.value].doc.userId == userId)
  {
    var oid :- ToObjectId(listId, "list_id");
    match FirstMatch(lists, (x: Row<ListDoc>) => x.id == oid && x.doc.userId == userId)
    case None => Err(HttpError(NotFound, "List not found."))
    case Some(i) => Ok(i)
  }

  function OwnedBy(userId: string): Row<ListDoc> -> bool {
    (x: Row<ListDoc>) => x.doc.userId == userId
  }

  /** The `{"list_id": list_id, "user_id": user_id}` filter on items. */
  function InList(listId: string, userId: string): Row<ItemDoc> -> bool {
    (x: Row<ItemDoc>) => x.doc.listId == listId && x.doc.userId == userId
  }

  function NotInList(listId: string, userId: string): Row<ItemDoc> -> bool {
    (x: Row<ItemDoc>) => !(x.doc.listId == listId && x.doc.userId == userId)
  }

  /** GET /lists: exactly the caller's lists, most recently updated first. */
  function ListLists(lists: seq<Row<ListDoc>>, userId: string): (r: seq<Row<ListDoc>>)
    ensures forall x :: x in r <==> x in lists && x.doc.userId == userId
    ensures multiset(r) <= multiset(lists)
    ensures forall i, j :: 0 <= i < j < |r| ==> r[i].doc.updatedAt >= r[j].doc.updatedAt
  {
    var r := SortRows(Filter(lists, OwnedBy(userId)), ListOrder);
    assert forall i, j :: 0 <= i < j < |r| ==> KeyLe(ListOrder(r[i].doc), ListOrder(r[j].doc));
    r
  }

  /** GET /lists/{list_id}. */
  function GetList(lists: seq<Row<ListDoc>>, listId: string, userId: string): (r: Result<Row<ListDoc>>)
    ensures r.Ok? <==> ListOr404(lists, listId, userId).Ok?
    ensures r.Ok? ==>
      r.value in lists && r.value.doc.userId == userId && r.value.id == ToObjectId(listId, "list_id").value
    ensures r.Err? ==> r.error == ListOr404(lists, listId, userId).error
  {
    var i :- ListOr404(lists, listId, userId);
    Ok(lists[i])
  }

  /** POST /lists: a new list owned by the caller, created and updated at the
      same instant. `newId` is the id the driver assigns. */
  method CreateList(db: Store, payload: ListCreate, userId: string, now: Time, newId: ObjectId)
    returns (r: Row<ListDoc>)
    requires db.Valid()
    requires newId !in Ids(db.lists)
    modifies db`lists
    ensures db.Valid()
    ensures r.id == newId && r.doc.userId == userId && r.doc.name == Some(payload.name)
    ensures r.doc.templateId == payload.templateId
    ensures r.doc.createdAt == r.doc.updatedAt == now
    ensures db.lists == old(db.lists) + [r]
  {
    var doc := ListDoc(userId, Some(payload.name), payload.templateId, now, now);
    r := Row(newId, doc);
    db.InsertList(r);
  }

  /** PATCH /lists/{list_id}: a null or missing name writes nothing and returns
      the stored list; a name is written together with a new `updated_at`. */
  method UpdateList(db: Store, listId: string, payload: ListUpdate, userId: string, now: Time)
    returns (r: Result<Row<ListDoc>>)
    requires db.Valid()
    modifies db`lists
    ensures db.Valid()
    ensures ListOr404(old(db.lists), listId, userId).Err? ==>
      r == Err(ListOr404(old(db.lists), listId, userId).error) && db.lists == old(db.lists)
    ensures ListOr404(old(db.lists), listId, userId).Ok? && payload.name.None? ==>
      db.lists == old(db.lists) && r == Ok(old(db.lists)[ListOr404(old(db.lists), listId, userId).value])
    ensures ListOr404(old(db.lists), listId, userId).Ok? && payload.name.Some? ==>
      var i := ListOr404(old(db.lists), listId, userId).value;
      var after := Row(old(db.lists)[i].id, old(db.lists)[i].doc.(name := payload.name, updatedAt := now));
      && db.lists == old(db.lists)[i := after]
      && r == Ok(after)
  {
    var found := ListOr404(db.lists, listId, userId);
    if found.Err? {
      return Err(found.error);
    }
    var nameSet: Field<Option<string>> := Unset;
    if payload.name.Some? {
      nameSet := Set(payload.name);
    }
    if nameSet.Unset? {
      var again := GetList(db.lists, listId, userId);
      return again;
    }
    var i := found.value;
    var before := db.lists[i];
    var after := Row(before.id, before.doc.(name := nameSet.value, updatedAt := now));
    ReplaceKeepsIds(db.lists, i, after.doc);
    db.lists := db.lists[i := after];
    r := Ok(after);
  }

  /** DELETE /lists/{list_id}: removes the list, then every item of the caller
      filed under that `list_id` string. */
  method DeleteList(db: Store, listId: string, userId: string) returns (r: Result<()>)
    requires db.Valid()
    modifies db`lists, db`items
    ensures db.Valid()
    ensures ListOr404(old(db.lists), listId, userId).Err? ==>
      r == Err(ListOr404(old(db.lists), listId, userId).error)
      && db.lists == old(db.lists) && db.items == old(db.items)
    ensures ListOr404(old(db.lists), listId, userId).Ok? ==>
      && r == Ok(())
      && db.lists == RemoveAt(old(db.lists), ListOr404(old(db.lists), listId, userId).value)
      && db.items == Filter(old(db.items), NotInList(listId, userId))
    ensures r.Ok? ==> !OwnsList(db.lists, ToObjectId(listId, "list_id").value, userId)
    ensures r.Ok? ==> forall k :: 0 <= k < |db.items| ==>
      !(db.items[k].doc.listId == listId && db.items[k].doc.userId == userId)
    ensures forall x :: x in old(db.items) && !(x.doc.listId == listId && x.doc.userId == userId) ==> x in db.items
  {
    var found := ListOr404(db.lists, listId, userId);
    if found.Err? {
      return Err(found.error);
    }
    RemoveAtKeepsDistinct(db.lists, found.value);
    db.lists := RemoveAt(db.lists, found.value);
    FilterKeepsDistinct(db.items, NotInList(listId, userId));
    var kept := Filter(db.items, NotInList(listId, userId));
    assert forall k :: 0 <= k < |kept| ==> kept[k] in db.items;
    db.items := kept;
    r := Ok(());
  }

  /** GET /lists/{list_id}/items: exactly the caller's items of that list,
      ordered by `sort_order` (null first) and then `created_at`. */
  function ListItems(lists: seq<Row<ListDoc>>, items: seq<Row<ItemDoc>>, listId: string, userId: string)
    : (r: Result<seq<Row<ItemDoc>>>)
    ensures r.Err? <==> ListOr404(lists, listId, userId).Err?
    ensures r.Err? ==> r.error == ListOr404(lists, listId, userId).error
    ensures r.Ok? ==> forall x :: x in r.value <==> x in items && x.doc.listId == listId && x.doc.userId == userId
    ensures r.Ok? ==> multiset(r.value) <= multiset(items)
    ensures r.Ok? ==> SortedBy(r.value, ItemOrder)
  {
    var _ :- ListOr404(lists, listId, userId);
    Ok(SortRows(Filter(items, InList(listId, userId)), ItemOrder))
  }

  /** The document `create_item` inserts. */
  function NewItem(listId: string, payload: ItemCreate, userId: string, now: Time): (d: ItemDoc)
    ensures d.purchased == Some(false) && d.purchasedAt.None? && PurchaseConsistent(d)
    ensures d.listId == listId && d.userId == userId && d.name == Some(payload.name)
    ensures d.qty == payload.qty && d.unit == payload.unit
    ensures d.sortOrder == Some(payload.sortOrder) && d.createdAt == d.updatedAt == now
  {
    ItemDoc(userId, listId, Some(payload.name), payload.qty, payload.unit,
      Some(false), None, Some(payload.sortOrder), now, now)
  }

  /** POST /lists/{list_id}/items: the list must be the caller's; the new item
      starts unpurchased and is filed under the `list_id` string as given. */
  method CreateItem(db: Store, listId: string, payload: ItemCreate, userId: string, now: Time, newId: ObjectId)
    returns (r: Result<Row<ItemDoc>>)
    requires db.Valid()
    requires newId !in Ids(db.items)
    modifies db`items
    ensures db.Valid()
    ensures ListOr404(db.lists, listId, userId).Err? ==>
      r == Err(ListOr404(db.lists, listId, userId).error) && db.items == old(db.items)
    ensures ListOr404(db.lists, listId, userId).Ok? ==>
      && r == Ok(Row(newId, NewItem(listId, payload, userId, now)))
      && db.items == old(db.items) + [r.value]
  {
    var found := ListOr404(db.lists, listId, userId);
    if found.Err? {
      return Err(found.error);
    }
    var row := Row(newId, NewItem(listId, payload, userId, now));
    AppendKeepsDistinct(db.items, [row]);
    db.items := db.items + [row];
    r := Ok(row);
  }

  /** `create_item` as written against `ItemCreate` as declared: once the list
      is found, reading `payload.unit` raises AttributeError, so no item is
      ever stored. */
  method CreateItemAsDeclared(db: Store, listId: string, payload: ItemCreateAsDeclared, userId: string)
    returns (r: Result<Row<ItemDoc>>)
    requires db.Valid()
    ensures r.Err?
    ensures ListOr404(db.lists, listId, userId).Err? ==> r == Err(ListOr404(db.lists, listId, userId).error)
    ensures ListOr404(db.lists, listId, userId).Ok? ==> r.error.code == ServerError
  {
    var found := ListOr404(db.lists, listId, userId);
    if found.Err? {
      return Err(found.error);
    }
    r := Err(HttpError(ServerError, "AttributeError: 'ItemCreate' object has no attribute 'unit'"));
  }
}
