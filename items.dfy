/** app/routers/items.py: fetch, partial update, toggle and delete of one
    list item, always scoped to the calling user. */
module Items {
  import opened Common
  import opened Utils
  import opened Schemas
  import opened Db

  /** The caller owns a stored item with this id. */
  predicate OwnsItem(items: seq<Row<ItemDoc>>, oid: ObjectId, userId: string) {
    exists k :: 0 <= k < |items| && items[k].id == oid && items[k].doc.userId == userId
  }

  /** `_get_item_or_404`: the position of the caller's item, 400 for a
      malformed id, 404 when the item is missing or belongs to someone else. */
  function ItemOr404(items: seq<Row<ItemDoc>>, itemId: string, userId: string): (r: Result<nat>)
    ensures !IsObjectIdString(itemId) ==> r == Err(HttpError(BadRequest, "Invalid item_id."))
    ensures IsObjectIdString(itemId) ==>
      var oid := ToObjectId(itemId, "item_id").value;
      && (r.Ok? <==> OwnsItem(items, oid, userId))
      && (r.Err? ==> r.error == HttpError(NotFound, "Item not found."))
      && (r.Ok? ==> r.value < |items| && items[r.value].id == oid && items[r.value].doc.userId == userId)
  {
    var oid :- ToObjectId(itemId, "item_id");
    match FirstMatch(items, (x: Row<ItemDoc>) => x.id == oid && x.doc.userId == userId)
    case None => Err(HttpError(NotFound, "Item not found."))
    case Some(i) => Ok(i)
  }

  /** The `$set` an item update sends: one entry per column it writes. */
  datatype ItemChanges = ItemChanges(
    name: Field<Option<string>>,
    qty: Field<Option<real>>,
    unit: Field<Option<string>>,
    sortOrder: Field<Option<int>>,
    purchased: Field<Option<bool>>,
    purchasedAt: Field<Option<Time>>,
    updatedAt: Field<Time>)

  const NoItemChanges := ItemChanges(Unset, Unset, Unset, Unset, Unset, Unset, Unset)

  /** `update_one(..., {"$set": changes})` on one stored item. */
  function ApplyItemChanges(d: ItemDoc, c: ItemChanges): (e: ItemDoc)
    ensures e.userId == d.userId && e.listId == d.listId && e.createdAt == d.createdAt
    ensures c == NoItemChanges ==> e == d
    ensures c.name.Set? ==> e.name == c.name.value
    ensures c.name.Unset? ==> e.name == d.name
    ensures c.qty.Set? ==> e.qty == c.qty.value
    ensures c.qty.Unset? ==> e.qty == d.qty
    ensures c.unit.Set? ==> e.unit == c.unit.value
    ensures c.unit.Unset? ==> e.unit == d.unit
    ensures c.sortOrder.Set? ==> e.sortOrder == c.sortOrder.value
    ensures c.sortOrder.Unset? ==> e.sortOrder == d.sortOrder
    ensures c.purchased.Set? ==> e.purchased == c.purchased.value
    ensures c.purchased.Unset? ==> e.purchased == d.purchased
    ensures c.purchasedAt.Set? ==> e.purchasedAt == c.purchasedAt.value
    ensures c.purchasedAt.Unset? ==> e.purchasedAt == d.purchasedAt
    ensures c.updatedAt.Set? ==> e.updatedAt == c.updatedAt.value
    ensures c.updatedAt.Unset? ==> e.updatedAt == d.updatedAt
  {
    d.(name := c.name.Or(d.name), qty := c.qty.Or(d.qty), unit := c.unit.Or(d.unit),
       sortOrder := c.sortOrder.Or(d.sortOrder), purchased := c.purchased.Or(d.purchased),
       purchasedAt := c.purchasedAt.Or(d.purchasedAt), updatedAt := c.updatedAt.Or(d.updatedAt))
  }

  /** The stored item after a PATCH: every sent field overwrites its column, a
      sent `purchased` also writes `purchased_at` (the first clock reading when
      truthy, null otherwise), and a non-empty update stamps `updated_at` with
      the second clock reading. */
  function PatchedItem(d: ItemDoc, u: ItemUpdate, purchaseTime: Time, now: Time): (e: ItemDoc)
    ensures e.userId == d.userId && e.listId == d.listId && e.createdAt == d.createdAt
    ensures ItemFieldsSet(u) == {} ==> e == d
    ensures ItemFieldsSet(u) != {} ==> e.updatedAt == now
    ensures "name" !in ItemFieldsSet(u) ==> e.name == d.name
    ensures "qty" !in ItemFieldsSet(u) ==> e.qty == d.qty
    ensures "unit" !in ItemFieldsSet(u) ==> e.unit == d.unit
    ensures "sort_order" !in ItemFieldsSet(u) ==> e.sortOrder == d.sortOrder
    ensures "purchased" !in ItemFieldsSet(u) ==> e.purchased == d.purchased && e.purchasedAt == d.purchasedAt
    ensures u.name.Set? ==> e.name == u.name.value
    ensures u.qty.Set? ==> e.qty == u.qty.value
    ensures u.unit.Set? ==> e.unit == u.unit.value
    ensures u.sortOrder.Set? ==> e.sortOrder == u.sortOrder.value
    ensures u.purchased.Set? ==> e.purchased == u.purchased.value
    ensures u.purchased == Set(Some(true)) ==> e.purchased == Some(true) && e.purchasedAt == Some(purchaseTime)
    ensures u.purchased.Set? && !Truthy(u.purchased.value) ==> e.purchasedAt.None?
    ensures PurchaseConsistent(d) ==> PurchaseConsistent(e)
  {
    var sent := ItemFieldsSet(u) != {};
    ItemDoc(
      d.userId, d.listId,
      u.name.Or(d.name), u.qty.Or(d.qty), u.unit.Or(d.unit),
      u.purchased.Or(d.purchased),
      if u.purchased.Set? then (if Truthy(u.purchased.value) then Some(purchaseTime) else None) else d.purchasedAt,
      u.sortOrder.Or(d.sortOrder),
      d.createdAt,
      if sent then now else d.updatedAt)
  }

  /** The stored item after `toggle`: the flag becomes the complement of its
      truthiness (a missing or null flag counts as false), `purchased_at`
      follows it, and `updated_at` is stamped. */
  function ToggledItem(d: ItemDoc, purchaseTime: Time, now: Time): (e: ItemDoc)
    ensures e.purchased == Some(!Truthy(d.purchased))
    ensures PurchaseConsistent(e)
    ensures e.purchasedAt == if Truthy(e.purchased) then Some(purchaseTime) else None
    ensures e.updatedAt == now
    ensures e == d.(purchased := e.purchased, purchasedAt := e.purchasedAt, updatedAt := now)
  {
    var newState := !Truthy(d.purchased);
    d.(purchased := Some(newState),
       purchasedAt := if newState then Some(purchaseTime) else None,
       updatedAt := now)
  }

  /** Toggling twice restores the purchased flag (as a boolean). */
  lemma ToggleTwiceRestores(d: ItemDoc, t1: Time, t2: Time, t3: Time, t4: Time)
    ensures ToggledItem(ToggledItem(d, t1, t2), t3, t4).purchased == Some(Truthy(d.purchased))
    ensures Truthy(ToggledItem(ToggledItem(d, t1, t2), t3, t4).purchased) == Truthy(d.purchased)
  {
  }

  /** The `$set` the handler builds from the sent fields writes exactly the
      patched item, and is empty exactly when nothing was sent. */
  lemma ChangesMatchPatch(d: ItemDoc, u: ItemUpdate, c: ItemChanges, purchaseTime: Time, now: Time)
    requires c.name == u.name && c.qty == u.qty && c.unit == u.unit && c.sortOrder == u.sortOrder
    requires c.purchased == u.purchased && c.updatedAt.Unset?
    requires c.purchasedAt == if u.purchased.Set? then Set(if Truthy(u.purchased.value) then Some(purchaseTime) else None) else Unset
    ensures c == NoItemChanges <==> ItemFieldsSet(u) == {}
    ensures c == NoItemChanges ==> PatchedItem(d, u, purchaseTime, now) == d
    ensures c != NoItemChanges ==> ApplyItemChanges(d, c.(updatedAt := Set(now))) == PatchedItem(d, u, purchaseTime, now)
  {
    if c != NoItemChanges {
      assert ItemFieldsSet(u) != {} by {
        if u.name.Set? { assert "name" in ItemFieldsSet(u); }
        else if u.qty.Set? { assert "qty" in ItemFieldsSet(u); }
        else if u.unit.Set? { assert "unit" in ItemFieldsSet(u); }
        else if u.sortOrder.Set? { assert "sort_order" in ItemFieldsSet(u); }
        else { assert "purchased" in ItemFieldsSet(u); }
      }
    }
  }

  /** The `updates` dict of `update_item`, built field by field from the
      sent fields. */
  method CollectItemChanges(u: ItemUpdate, purchaseTime: Time) returns (updates: ItemChanges)
    ensures updates.name == u.name && updates.qty == u.qty && updates.unit == u.unit
    ensures updates.sortOrder == u.sortOrder && updates.purchased == u.purchased && updates.updatedAt.Unset?
    ensures updates.purchasedAt ==
      if u.purchased.Set? then Set(if Truthy(u.purchased.value) then Some(purchaseTime) else None) else Unset
  {
    updates := NoItemChanges;
    if u.name.Set? {
      updates := updates.(name := u.name);
    }
    if u.qty.Set? {
      updates := updates.(qty := u.qty);
    }
    if u.unit.Set? {
      updates := updates.(unit := u.unit);
    }
    if u.sortOrder.Set? {
      updates := updates.(sortOrder := u.sortOrder);
    }
    if u.purchased.Set? {
      var stamp := if Truthy(u.purchased.value) then Some(purchaseTime) else None;
      updates := updates.(purchased := u.purchased, purchasedAt := Set(stamp));
    }
  }

  /** PATCH /items/{item_id}. `purchaseTime` and `now` are the two `utcnow()`
      readings the handler takes. */
  method UpdateItem(db: Store, itemId: string, payload: ItemUpdate, userId: string, purchaseTime: Time, now: Time)
    returns (r: Result<Row<ItemDoc>>)
    requires db.Valid()
    modifies db`items
    ensures db.Valid()
    ensures ItemOr404(old(db.items), itemId, userId).Err? ==>
      r == Err(ItemOr404(old(db.items), itemId, userId).error) && db.items == old(db.items)
    ensures ItemOr404(old(db.items), itemId, userId).Ok? ==>
      var i := ItemOr404(old(db.items), itemId, userId).value;
      var after := Row(old(db.items)[i].id, PatchedItem(old(db.items)[i].doc, payload, purchaseTime, now));
      && db.items == old(db.items)[i := after]
      && r == Ok(after)
  {
    var found := ItemOr404(db.items, itemId, userId);
    if found.Err? {
      return Err(found.error);
    }
    var i := found.value;
    var before := db.items[i];
    var updates := CollectItemChanges(payload, purchaseTime);
    ChangesMatchPatch(before.doc, payload, updates, purchaseTime, now);
    if updates == NoItemChanges {
      return Ok(before);
    }
    updates := updates.(updatedAt := Set(now));
    var after := Row(before.id, ApplyItemChanges(before.doc, updates));
    ReplaceKeepsIds(db.items, i, after.doc);
    db.items := db.items[i := after];
    r := Ok(after);
  }

  /** POST /items/{item_id}/toggle. */
  method ToggleItem(db: Store, itemId: string, userId: string, purchaseTime: Time, now: Time)
    returns (r: Result<Row<ItemDoc>>)
    requires db.Valid()
    modifies db`items
    ensures db.Valid()
    ensures ItemOr404(old(db.items), itemId, userId).Err? ==>
      r == Err(ItemOr404(old(db.items), itemId, userId).error) && db.items == old(db.items)
    ensures ItemOr404(old(db.items), itemId, userId).Ok? ==>
      var i := ItemOr404(old(db.items), itemId, userId).value;
      var after := Row(old(db.items)[i].id, ToggledItem(old(db.items)[i].doc, purchaseTime, now));
      && db.items == old(db.items)[i := after]
      && r == Ok(after)
  {
    var found := ItemOr404(db.items, itemId, userId);
    if found.Err? {
      return Err(found.error);
    }
    var i := found.value;
    var before := db.items[i];
    var newState := !Truthy(before.doc.purchased);
    var updates := ItemChanges(Unset, Unset, Unset, Unset,
      Set(Some(newState)), Set(if newState then Some(purchaseTime) else None), Set(now));
    var after := Row(before.id, ApplyItemChanges(before.doc, updates));
    ReplaceKeepsIds(db.items, i, after.doc);
    db.items := db.items[i := after];
    r := Ok(after);
  }

  /** DELETE /items/{item_id}: removes exactly the caller's item with that id. */
  method DeleteItem(db: Store, itemId: string, userId: string) returns (r: Result<()>)
    requires db.Valid()
    modifies db`items
    ensures db.Valid()
    ensures ItemOr404(old(db.items), itemId, userId).Err? ==>
      r == Err(ItemOr404(old(db.items), itemId, userId).error) && db.items == old(db.items)
    ensures ItemOr404(old(db.items), itemId, userId).Ok? ==>
      r == Ok(()) && db.items == RemoveAt(old(db.items), ItemOr404(old(db.items), itemId, userId).value)
    ensures r.Ok? ==> !OwnsItem(db.items, ToObjectId(itemId, "item_id").value, userId)
  {
    var found := ItemOr404(db.items, itemId, userId);
    if found.Err? {
      return Err(found.error);
    }
    ghost var oid := ToObjectId(itemId, "item_id").value;
    RemoveAtKeepsDistinct(db.items, found.value);
    db.items := RemoveAt(db.items, found.value);
    assert oid !in Ids(db.items);
    r := Ok(());
  }
}
