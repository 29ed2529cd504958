/** app/routers/templates.py: reusable list templates, their items, and
    turning a template into a fresh shopping list. */
module Templates {
  import opened Common
  import opened Utils
  import opened Schemas
  import opened Db
  import Lists

  predicate OwnsTemplate(templates: seq<Row<TemplateDoc>>, oid: ObjectId, userId: string) {
    exists k :: 0 <= k < |templates| && templates[k].id == oid && templates[k].doc.userId == userId
  }

  predicate OwnsTemplateItem(rows: seq<Row<TemplateItemDoc>>, oid: ObjectId, templateId: string, userId: string) {
    exists k :: 0 <= k < |rows| && rows[k].id == oid && rows[k].doc.templateId == templateId && rows[k].doc.userId == userId
  }

  /** `_get_template_or_404`. */
  function TemplateOr404(templates: seq<Row<TemplateDoc>>, templateId: string, userId: string): (r: Result<nat>)
    ensures !IsObjectIdString(templateId) ==> r == Err(HttpError(BadRequest, "Invalid template_id."))
    ensures IsObjectIdString(templateId) ==>
      var oid := ToObjectId(templateId, "template_id").value;
      && (r.Ok? <==> OwnsTemplate(templates, oid, userId))
      && (r.Err? ==> r.error == HttpError(NotFound, "Template not found."))
      && (r.Ok? ==> r.value < |templates| && templates[r.value].id == oid && templates[r.value].doc.userId == userId)
  {
    var oid :- ToObjectId(templateId, "template_id");
    match FirstMatch(templates, (x: Row<TemplateDoc>) => x.id == oid && x.doc.userId == userId)
    case None => Err(HttpError(NotFound, "Template not found."))
    case Some(i) => Ok(i)
  }

  /** `_get_template_item_or_404`: scoped by the item id, the `template_id`
      string and the caller. */
  function TemplateItemOr404(rows: seq<Row<TemplateItemDoc>>, templateId: string, itemId: string, userId: string)
    : (r: Result<nat>)
    ensures !IsObjectIdString(itemId) ==> r == Err(HttpError(BadRequest, "Invalid template_item_id."))
    ensures IsObjectIdString(itemId) ==>
      var oid := ToObjectId(itemId, "template_item_id").value;
      && (r.Ok? <==> OwnsTemplateItem(rows, oid, templateId, userId))
      && (r.Err? ==> r.error == HttpError(NotFound, "Template item not found."))
      && (r.Ok? ==>
            r.value < |rows| && rows[r.value].id == oid
            && rows[r.value].doc.templateId == templateId && rows[r.value].doc.userId == userId)
  {
    var oid :- ToObjectId(itemId, "template_item_id");
    match FirstMatch(rows, (x: Row<TemplateItemDoc>) =>
      x.id == oid && x.doc.templateId == templateId && x.doc.userId == userId)
    case None => Err(HttpError(NotFound, "Template item not found."))
    case Some(i) => Ok(i)
  }

  function OwnedBy(userId: string): Row<TemplateDoc> -> bool {
    (x: Row<TemplateDoc>) => x.doc.userId == userId
  }

  /** The `{"template_id": template_id, "user_id": user_id}` filter. */
  function InTemplate(templateId: string, userId: string): Row<TemplateItemDoc> -> bool {
    (x: Row<TemplateItemDoc>) => x.doc.templateId == templateId && x.doc.userId == userId
  }

  function NotInTemplate(templateId: string, userId: string): Row<TemplateItemDoc> -> bool {
    (x: Row<TemplateItemDoc>) => !(x.doc.templateId == templateId && x.doc.userId == userId)
  }

  /** A template with its items, as `TemplateDetailOut` carries them. */
  datatype TemplateDetail = TemplateDetail(template: Row<TemplateDoc>, items: seq<Row<TemplateItemDoc>>)

  /** The template items a detail response carries: the caller's items of
      that `template_id`, by `sort_order` (null first) then `created_at`. */
  function SortedTemplateItems(rows: seq<Row<TemplateItemDoc>>, templateId: string, userId: string)
    : (r: seq<Row<TemplateItemDoc>>)
    ensures forall x :: x in r <==> x in rows && x.doc.templateId == templateId && x.doc.userId == userId
    ensures multiset(r) <= multiset(rows)
    ensures SortedBy(r, TemplateItemOrder)
  {
    SortRows(Filter(rows, InTemplate(templateId, userId)), TemplateItemOrder)
  }

  /** GET /templates: the caller's templates, most recently updated first. */
  function ListTemplates(templates: seq<Row<TemplateDoc>>, userId: string): (r: seq<Row<TemplateDoc>>)
    ensures forall x :: x in r <==> x in templates && x.doc.userId == userId
    ensures multiset(r) <= multiset(templates)
    ensures forall i, j :: 0 <= i < j < |r| ==> r[i].doc.updatedAt >= r[j].doc.updatedAt
  {
    var r := SortRows(Filter(templates, OwnedBy(userId)), TemplateOrder);
    assert forall i, j :: 0 <= i < j < |r| ==> KeyLe(TemplateOrder(r[i].doc), TemplateOrder(r[j].doc));
    r
  }

  /** GET /templates/{template_id}. */
  function GetTemplate(templates: seq<Row<TemplateDoc>>, rows: seq<Row<TemplateItemDoc>>, templateId: string, userId: string)
    : (r: Result<TemplateDetail>)
    ensures r.Err? <==> TemplateOr404(templates, templateId, userId).Err?
    ensures r.Err? ==> r.error == TemplateOr404(templates, templateId, userId).error
    ensures r.Ok? ==> r.value.template in templates && r.value.template.doc.userId == userId
    ensures r.Ok? ==> IsObjectIdString(templateId) && r.value.template.id == ToObjectId(templateId, "template_id").value
    ensures r.Ok? ==> r.value.items == SortedTemplateItems(rows, templateId, userId)
  {
    var i :- TemplateOr404(templates, templateId, userId);
    Ok(TemplateDetail(templates[i], SortedTemplateItems(rows, templateId, userId)))
  }

  /** GET /templates/{template_id}/items. */
  function ListTemplateItems(templates: seq<Row<TemplateDoc>>, rows: seq<Row<TemplateItemDoc>>, templateId: string, userId: string)
    : (r: Result<seq<Row<TemplateItemDoc>>>)
    ensures r.Err? <==> TemplateOr404(templates, templateId, userId).Err?
    ensures r.Err? ==> r.error == TemplateOr404(templates, templateId, userId).error
    ensures r.Ok? ==> forall x :: x in r.value <==> x in rows && x.doc.templateId == templateId && x.doc.userId == userId
    ensures r.Ok? ==> multiset(r.value) <= multiset(rows)
    ensures r.Ok? ==> SortedBy(r.value, TemplateItemOrder)
  {
    var _ :- TemplateOr404(templates, templateId, userId);
    Ok(SortedTemplateItems(rows, templateId, userId))
  }

  /** The document stored for one payload item of a template. */
  function NewTemplateItem(p: TemplateItemCreate, templateId: string, userId: string, now: Time): (d: TemplateItemDoc)
    ensures d.templateId == templateId && d.userId == userId
    ensures d.name == Some(p.name) && d.qty == p.qty && d.unit == p.unit && d.sortOrder == Some(p.sortOrder)
    ensures d.createdAt == d.updatedAt == now
  {
    TemplateItemDoc(userId, templateId, Some(p.name), p.qty, p.unit, Some(p.sortOrder), now, now)
  }

  /** The documents `create_template` stores, one per payload item, in order. */
  function NewTemplateItems(items: seq<TemplateItemCreate>, templateId: string, userId: string, now: Time)
    : (docs: seq<TemplateItemDoc>)
    ensures |docs| == |items|
    ensures forall j :: 0 <= j < |items| ==> docs[j] == NewTemplateItem(items[j], templateId, userId, now)
  {
    seq(|items|, j requires 0 <= j < |items| => NewTemplateItem(items[j], templateId, userId, now))
  }

  /** The loop of `create_template` that builds the item documents. */
  method BuildTemplateItems(items: seq<TemplateItemCreate>, templateId: string, userId: string, now: Time)
    returns (docs: seq<TemplateItemDoc>)
    ensures docs == NewTemplateItems(items, templateId, userId, now)
  {
    docs := [];
    var k := 0;
    while k < |items|
      invariant 0 <= k <= |items|
      invariant |docs| == k
      invariant forall j :: 0 <= j < k ==> docs[j] == NewTemplateItem(items[j], templateId, userId, now)
    {
      var item := items[k];
      docs := docs + [TemplateItemDoc(userId, templateId, Some(item.name), item.qty, item.unit,
                                      Some(item.sortOrder), now, now)];
      k := k + 1;
    }
  }

  /** POST /templates: inserts the template, then one template item per
      payload item, all stamped with the template's `now`; answers with the
      template and its items sorted. `newId` and `itemIds` are the ids the
      driver assigns. */
  method CreateTemplate(db: Store, payload: TemplateCreate, userId: string, now: Time,
                        newId: ObjectId, itemIds: seq<ObjectId>)
    returns (r: TemplateDetail)
    requires db.Valid()
    requires newId !in Ids(db.templates)
    requires |itemIds| == |payload.items|
    requires forall i, j :: 0 <= i < j < |itemIds| ==> itemIds[i] != itemIds[j]
    requires forall k :: 0 <= k < |itemIds| ==> itemIds[k] !in Ids(db.templateItems)
    modifies db`templates, db`templateItems
    ensures db.Valid()
    ensures r.template == Row(newId, TemplateDoc(userId, Some(payload.name), now, now))
    ensures db.templates == old(db.templates) + [r.template]
    ensures db.templateItems == old(db.templateItems) + WithIds(itemIds, NewTemplateItems(payload.items, Str(newId), userId, now))
    ensures r.items == SortedTemplateItems(db.templateItems, Str(newId), userId)
  {
    var template := Row(newId, TemplateDoc(userId, Some(payload.name), now, now));
    db.InsertTemplate(template);
    var templateId := Str(newId);

    var itemDocs := BuildTemplateItems(payload.items, templateId, userId, now);
    if itemDocs != [] {
      InsertManyKeepsDistinct(db.templateItems, itemIds, itemDocs);
      db.templateItems := db.templateItems + WithIds(itemIds, itemDocs);
    } else {
      assert db.templateItems + WithIds(itemIds, itemDocs) == db.templateItems;
    }
    r := TemplateDetail(template, SortedTemplateItems(db.templateItems, templateId, userId));
  }

  /** `create_template` as written against the schemas as declared: the
      template is inserted first, then reading `item.unit` on the first
      payload item raises AttributeError, so a template sent with items is
      stored without them and the request fails. */
  method CreateTemplateAsDeclared(db: Store, payload: TemplateCreateAsDeclared, userId: string, now: Time, newId: ObjectId)
    returns (r: Result<TemplateDetail>)
    requires db.Valid()
    requires newId !in Ids(db.templates)
    modifies db`templates
    ensures db.Valid()
    ensures db.templates == old(db.templates) + [Row(newId, TemplateDoc(userId, Some(payload.name), now, now))]
    ensures r.Err? <==> payload.items != []
    ensures r.Err? ==> r.error.code == ServerError
  {
    var template := Row(newId, TemplateDoc(userId, Some(payload.name), now, now));
    db.InsertTemplate(template);
    if payload.items != [] {
      return Err(HttpError(ServerError, "AttributeError: 'TemplateItemCreate' object has no attribute 'unit'"));
    }
    r := Ok(TemplateDetail(template, SortedTemplateItems(db.templateItems, Str(newId), userId)));
  }

  /** PATCH /templates/{template_id}: a request that does not send `name`
      writes nothing; one that does (even as null) writes it with a new
      `updated_at`. */
  method UpdateTemplate(db: Store, templateId: string, payload: TemplateUpdate, userId: string, now: Time)
    returns (r: Result<Row<TemplateDoc>>)
    requires db.Valid()
    modifies db`templates
    ensures db.Valid()
    ensures TemplateOr404(old(db.templates), templateId, userId).Err? ==>
      r == Err(TemplateOr404(old(db.templates), templateId, userId).error) && db.templates == old(db.templates)
    ensures TemplateOr404(old(db.templates), templateId, userId).Ok? && payload.name.Unset? ==>
      db.templates == old(db.templates)
      && r == Ok(old(db.templates)[TemplateOr404(old(db.templates), templateId, userId).value])
    ensures TemplateOr404(old(db.templates), templateId, userId).Ok? && payload.name.Set? ==>
      var i := TemplateOr404(old(db.templates), templateId, userId).value;
      var after := Row(old(db.templates)[i].id, old(db.templates)[i].doc.(name := payload.name.value, updatedAt := now));
      && db.templates == old(db.templates)[i := after]
      && r == Ok(after)
  {
    var found := TemplateOr404(db.templates, templateId, userId);
    if found.Err? {
      return Err(found.error);
    }
    var i := found.value;
    if payload.name.Unset? {
      return Ok(db.templates[i]);
    }
    var before := db.templates[i];
    var after := Row(before.id, before.doc.(name := payload.name.value, updatedAt := now));
    ReplaceKeepsIds(db.templates, i, after.doc);
    db.templates := db.templates[i := after];
    r := Ok(after);
  }

  /** DELETE /templates/{template_id}: removes the template, then every item of
      the caller filed under that `template_id` string. */
  method DeleteTemplate(db: Store, templateId: string, userId: string) returns (r: Result<()>)
    requires db.Valid()
    modifies db`templates, db`templateItems
    ensures db.Valid()
    ensures TemplateOr404(old(db.templates), templateId, userId).Err? ==>
      r == Err(TemplateOr404(old(db.templates), templateId, userId).error)
      && db.templates == old(db.templates) && db.templateItems == old(db.templateItems)
    ensures TemplateOr404(old(db.templates), templateId, userId).Ok? ==>
      && r == Ok(())
      && db.templates == RemoveAt(old(db.templates), TemplateOr404(old(db.templates), templateId, userId).value)
      && db.templateItems == Filter(old(db.templateItems), NotInTemplate(templateId, userId))
    ensures r.Ok? ==> !OwnsTemplate(db.templates, ToObjectId(templateId, "template_id").value, userId)
    ensures r.Ok? ==> forall k :: 0 <= k < |db.templateItems| ==>
      !(db.templateItems[k].doc.templateId == templateId && db.templateItems[k].doc.userId == userId)
    ensures forall x :: x in old(db.templateItems) && !(x.doc.templateId == templateId && x.doc.userId == userId) ==>
      x in db.templateItems
  {
    var found := TemplateOr404(db.templates, templateId, userId);
    if found.Err? {
      return Err(found.error);
    }
    RemoveAtKeepsDistinct(db.templates, found.value);
    db.templates := RemoveAt(db.templates, found.value);
    FilterKeepsDistinct(db.templateItems, NotInTemplate(templateId, userId));
    var kept := Filter(db.templateItems, NotInTemplate(templateId, userId));
    assert forall k :: 0 <= k < |kept| ==> kept[k] in db.templateItems;
    db.templateItems := kept;
    r := Ok(());
  }

  /** POST /templates/{template_id}/items: the template must be the caller's;
      the item is filed under the `template_id` string as given. */
  method CreateTemplateItem(db: Store, templateId: string, payload: TemplateItemCreate, userId: string,
                            now: Time, newId: ObjectId)
    returns (r: Result<Row<TemplateItemDoc>>)
    requires db.Valid()
    requires newId !in Ids(db.templateItems)
    modifies db`templateItems
    ensures db.Valid()
    ensures TemplateOr404(db.templates, templateId, userId).Err? ==>
      r == Err(TemplateOr404(db.templates, templateId, userId).error) && db.templateItems == old(db.templateItems)
    ensures TemplateOr404(db.templates, templateId, userId).Ok? ==>
      && r == Ok(Row(newId, NewTemplateItem(payload, templateId, userId, now)))
      && db.templateItems == old(db.templateItems) + [r.value]
  {
    var found := TemplateOr404(db.templates, templateId, userId);
    if found.Err? {
      return Err(found.error);
    }
    var row := Row(newId, NewTemplateItem(payload, templateId, userId, now));
    AppendKeepsDistinct(db.templateItems, [row]);
    db.templateItems := db.templateItems + [row];
    r := Ok(row);
  }

  /** `create_template_item` as written against `TemplateItemCreate` as
      declared: after the template lookup, reading `payload.unit` raises. */
  method CreateTemplateItemAsDeclared(db: Store, templateId: string, payload: ItemCreateAsDeclared, userId: string)
    returns (r: Result<Row<TemplateItemDoc>>)
    requires db.Valid()
    ensures r.Err?
    ensures TemplateOr404(db.templates, templateId, userId).Err? ==>
      r == Err(TemplateOr404(db.templates, templateId, userId).error)
    ensures TemplateOr404(db.templates, templateId, userId).Ok? ==> r.error.code == ServerError
  {
    var found := TemplateOr404(db.templates, templateId, userId);
    if found.Err? {
      return Err(found.error);
    }
    r := Err(HttpError(ServerError, "AttributeError: 'TemplateItemCreate' object has no attribute 'unit'"));
  }

  /** The `$set` a template item update sends. */
  datatype TemplateItemChanges = TemplateItemChanges(
    name: Field<Option<string>>,
    qty: Field<Option<real>>,
    unit: Field<Option<string>>,
    sortOrder: Field<Option<int>>,
    updatedAt: Field<Time>)

  const NoTemplateItemChanges := TemplateItemChanges(Unset, Unset, Unset, Unset, Unset)

  /** `update_one(..., {"$set": changes})` on one stored template item. */
  function ApplyTemplateItemChanges(d: TemplateItemDoc, c: TemplateItemChanges): (e: TemplateItemDoc)
    ensures e.userId == d.userId && e.templateId == d.templateId && e.createdAt == d.createdAt
    ensures c == NoTemplateItemChanges ==> e == d
    ensures c.name.Set? ==> e.name == c.name.value
    ensures c.name.Unset? ==> e.name == d.name
    ensures c.qty.Set? ==> e.qty == c.qty.value
    ensures c.qty.Unset? ==> e.qty == d.qty
    ensures c.unit.Set? ==> e.unit == c.unit.value
    ensures c.unit.Unset? ==> e.unit == d.unit
    ensures c.sortOrder.Set? ==> e.sortOrder == c.sortOrder.value
    ensures c.sortOrder.Unset? ==> e.sortOrder == d.sortOrder
    ensures c.updatedAt.Set? ==> e.updatedAt == c.updatedAt.value
    ensures c.updatedAt.Unset? ==> e.updatedAt == d.updatedAt
  {
    d.(name := c.name.Or(d.name), qty := c.qty.Or(d.qty), unit := c.unit.Or(d.unit),
       sortOrder := c.sortOrder.Or(d.sortOrder), updatedAt := c.updatedAt.Or(d.updatedAt))
  }

  /** The stored template item after a PATCH: sent fields overwrite, absent
      ones keep their value, and `updated_at` moves only when something was sent. */
  function PatchedTemplateItem(d: TemplateItemDoc, u: TemplateItemUpdate, now: Time): (e: TemplateItemDoc)
    ensures e.userId == d.userId && e.templateId == d.templateId && e.createdAt == d.createdAt
    ensures TemplateItemFieldsSet(u) == {} ==> e == d
    ensures TemplateItemFieldsSet(u) != {} ==> e.updatedAt == now
    ensures "name" !in TemplateItemFieldsSet(u) ==> e.name == d.name
    ensures "qty" !in TemplateItemFieldsSet(u) ==> e.qty == d.qty
    ensures "unit" !in TemplateItemFieldsSet(u) ==> e.unit == d.unit
    ensures "sort_order" !in TemplateItemFieldsSet(u) ==> e.sortOrder == d.sortOrder
    ensures u.name.Set? ==> e.name == u.name.value
    ensures u.qty.Set? ==> e.qty == u.qty.value
    ensures u.unit.Set? ==> e.unit == u.unit.value
    ensures u.sortOrder.Set? ==> e.sortOrder == u.sortOrder.value
  {
    TemplateItemDoc(d.userId, d.templateId, u.name.Or(d.name), u.qty.Or(d.qty), u.unit.Or(d.unit),
      u.sortOrder.Or(d.sortOrder), d.createdAt,
      if TemplateItemFieldsSet(u) != {} then now else d.updatedAt)
  }

  /** The `$set` the handler builds writes exactly the patched template item,
      and is empty exactly when nothing was sent. */
  lemma TemplateChangesMatchPatch(d: TemplateItemDoc, u: TemplateItemUpdate, c: TemplateItemChanges, now: Time)
    requires c.name == u.name && c.qty == u.qty && c.unit == u.unit && c.sortOrder == u.sortOrder
    requires c.updatedAt.Unset?
    ensures c == NoTemplateItemChanges <==> TemplateItemFieldsSet(u) == {}
    ensures c == NoTemplateItemChanges ==> PatchedTemplateItem(d, u, now) == d
    ensures c != NoTemplateItemChanges ==>
      ApplyTemplateItemChanges(d, c.(updatedAt := Set(now))) == PatchedTemplateItem(d, u, now)
  {
    if c != NoTemplateItemChanges {
      assert TemplateItemFieldsSet(u) != {} by {
        if u.name.Set? { assert "name" in TemplateItemFieldsSet(u); }
        else if u.qty.Set? { assert "qty" in TemplateItemFieldsSet(u); }
        else if u.unit.Set? { assert "unit" in TemplateItemFieldsSet(u); }
        else { assert "sort_order" in TemplateItemFieldsSet(u); }
      }
    }
  }

  /** The `updates` dict of `update_template_item`, built field by field. */
  method CollectTemplateItemChanges(u: TemplateItemUpdate) returns (updates: TemplateItemChanges)
    ensures updates.name == u.name && updates.qty == u.qty && updates.unit == u.unit
    ensures updates.sortOrder == u.sortOrder && updates.updatedAt.Unset?
  {
    updates := NoTemplateItemChanges;
    if u.name.Set? {
      updates := updates.(name := u.name);
    }
    if u.qty.Set? {
      updates := updates.(qty := u.qty);
    }
    if u.unit.Set? {
      updates := updates.(unit := u.unit);
    }
    if u.sortOrder.Set? {
      updates := updates.(sortOrder := u.sortOrder);
    }
  }

  /** PATCH /templates/{template_id}/items/{item_id}: the template and then the
      item must be the caller's. */
  method UpdateTemplateItem(db: Store, templateId: string, itemId: string, payload: TemplateItemUpdate,
                            userId: string, now: Time)
    returns (r: Result<Row<TemplateItemDoc>>)
    requires db.Valid()
    modifies db`templateItems
    ensures db.Valid()
    ensures TemplateOr404(db.templates, templateId, userId).Err? ==>
      r == Err(TemplateOr404(db.templates, templateId, userId).error) && db.templateItems == old(db.templateItems)
    ensures TemplateOr404(db.templates, templateId, userId).Ok?
            && TemplateItemOr404(old(db.templateItems), templateId, itemId, userId).Err? ==>
      r == Err(TemplateItemOr404(old(db.templateItems), templateId, itemId, userId).error)
      && db.templateItems == old(db.templateItems)
    ensures TemplateOr404(db.templates, templateId, userId).Ok?
            && TemplateItemOr404(old(db.templateItems), templateId, itemId, userId).Ok? ==>
      var i := TemplateItemOr404(old(db.templateItems), templateId, itemId, userId).value;
      var after := Row(old(db.templateItems)[i].id, PatchedTemplateItem(old(db.templateItems)[i].doc, payload, now));
      && db.templateItems == old(db.templateItems)[i := after]
      && r == Ok(after)
  {
    var template := TemplateOr404(db.templates, templateId, userId);
    if template.Err? {
      return Err(template.error);
    }
    var found := TemplateItemOr404(db.templateItems, templateId, itemId, userId);
    if found.Err? {
      return Err(found.error);
    }
    var i := found.value;
    var before := db.templateItems[i];
    var updates := CollectTemplateItemChanges(payload);
    TemplateChangesMatchPatch(before.doc, payload, updates, now);
    if updates == NoTemplateItemChanges {
      return Ok(before);
    }
    updates := updates.(updatedAt := Set(now));
    var after := Row(before.id, ApplyTemplateItemChanges(before.doc, updates));
    ReplaceKeepsIds(db.templateItems, i, after.doc);
    db.templateItems := db.templateItems[i := after];
    r := Ok(after);
  }

  /** DELETE /templates/{template_id}/items/{item_id}: removes only that item. */
  method DeleteTemplateItem(db: Store, templateId: string, itemId: string, userId: string) returns (r: Result<()>)
    requires db.Valid()
    modifies db`templateItems
    ensures db.Valid()
    ensures TemplateOr404(db.templates, templateId, userId).Err? ==>
      r == Err(TemplateOr404(db.templates, templateId, userId).error) && db.templateItems == old(db.templateItems)
    ensures TemplateOr404(db.templates, templateId, userId).Ok?
            && TemplateItemOr404(old(db.templateItems), templateId, itemId, userId).Err? ==>
      r == Err(TemplateItemOr404(old(db.templateItems), templateId, itemId, userId).error)
      && db.templateItems == old(db.templateItems)
    ensures TemplateOr404(db.templates, templateId, userId).Ok?
            && TemplateItemOr404(old(db.templateItems), templateId, itemId, userId).Ok? ==>
      r == Ok(())
      && db.templateItems == RemoveAt(old(db.templateItems), TemplateItemOr404(old(db.templateItems), templateId, itemId, userId).value)
  {
    var template := TemplateOr404(db.templates, templateId, userId);
    if template.Err? {
      return Err(template.error);
    }
    var found := TemplateItemOr404(db.templateItems, templateId, itemId, userId);
    if found.Err? {
      return Err(found.error);
    }
    RemoveAtKeepsDistinct(db.templateItems, found.value);
    db.templateItems := RemoveAt(db.templateItems, found.value);
    r := Ok(());
  }

  /** The list item copied from one template item: its name, quantity, unit
      and sort order, unpurchased, created and updated at `now`. The stored
      template item always carries `sort_order`, so the handler's default of 0
      never applies. */
  function CopiedItem(t: TemplateItemDoc, listId: string, userId: string, now: Time): (d: ItemDoc)
    ensures d.listId == listId && d.userId == userId
    ensures d.name == t.name && d.qty == t.qty && d.unit == t.unit && d.sortOrder == t.sortOrder
    ensures d.purchased == Some(false) && d.purchasedAt.None? && PurchaseConsistent(d)
    ensures d.createdAt == d.updatedAt == now
  {
    ItemDoc(userId, listId, t.name, t.qty, t.unit, Some(false), None, t.sortOrder, now, now)
  }

  /** The list name: the payload's name when it is a non-empty string,
      otherwise the template's (Python's `payload.name or template["name"]`). */
  function NewListName(payload: CreateListFromTemplate, template: TemplateDoc): (n: Option<string>)
    ensures payload.name.Some? && payload.name.value != "" ==> n == payload.name
    ensures payload.name.None? ==> n == template.name
  {
    if payload.name.Some? && payload.name.value != "" then payload.name else template.name
  }

  /** The template items `create_list_from_template` reads, in natural order. */
  function TemplateItemsOf(rows: seq<Row<TemplateItemDoc>>, templateId: string, userId: string)
    : (r: seq<Row<TemplateItemDoc>>)
    ensures forall x :: x in r <==> x in rows && x.doc.templateId == templateId && x.doc.userId == userId
    ensures multiset(r) <= multiset(rows)
  {
    Filter(rows, InTemplate(templateId, userId))
  }

  /** The list items `create_list_from_template` stores, one per template
      item, in the order the template items were read. */
  function CopiedItems(source: seq<Row<TemplateItemDoc>>, listId: string, userId: string, now: Time)
    : (docs: seq<ItemDoc>)
    ensures |docs| == |source|
    ensures forall j :: 0 <= j < |source| ==> docs[j] == CopiedItem(source[j].doc, listId, userId, now)
  {
    seq(|source|, j requires 0 <= j < |source| => CopiedItem(source[j].doc, listId, userId, now))
  }

  /** The loop of `create_list_from_template` that builds the item documents. */
  method CopyTemplateItems(source: seq<Row<TemplateItemDoc>>, listId: string, userId: string, now: Time)
    returns (docs: seq<ItemDoc>)
    ensures docs == CopiedItems(source, listId, userId, now)
  {
    docs := [];
    var k := 0;
    while k < |source|
      invariant 0 <= k <= |source|
      invariant |docs| == k
      invariant forall j :: 0 <= j < k ==> docs[j] == CopiedItem(source[j].doc, listId, userId, now)
    {
      var item := source[k].doc;
      docs := docs + [ItemDoc(userId, listId, item.name, item.qty, item.unit,
                              Some(false), None, item.sortOrder, now, now)];
      k := k + 1;
    }
  }

  /** POST /templates/{template_id}/create-list: a new list named after the
      payload or the template, with `template_id` recording its origin, and
      one fresh unpurchased item per template item, all sharing one `now`.
      `listId` and `itemIds` are the ids the driver assigns. */
  method CreateListFromTemplate(db: Store, templateId: string, payload: CreateListFromTemplate, userId: string,
                                now: Time, listId: ObjectId, itemIds: seq<ObjectId>)
    returns (r: Result<Row<ListDoc>>)
    requires db.Valid()
    requires listId !in Ids(db.lists)
    requires |itemIds| == |TemplateItemsOf(db.templateItems, templateId, userId)|
    requires forall i, j :: 0 <= i < j < |itemIds| ==> itemIds[i] != itemIds[j]
    requires forall k :: 0 <= k < |itemIds| ==> itemIds[k] !in Ids(db.items)
    modifies db`lists, db`items
    ensures db.Valid()
    ensures TemplateOr404(db.templates, templateId, userId).Err? ==>
      r == Err(TemplateOr404(db.templates, templateId, userId).error)
      && db.lists == old(db.lists) && db.items == old(db.items)
    ensures TemplateOr404(db.templates, templateId, userId).Ok? ==>
      var template := db.templates[TemplateOr404(db.templates, templateId, userId).value].doc;
      var source := TemplateItemsOf(db.templateItems, templateId, userId);
      && r == Ok(Row(listId, ListDoc(userId, NewListName(payload, template), Some(templateId), now, now)))
      && db.lists == old(db.lists) + [r.value]
      && db.items == old(db.items) + WithIds(itemIds, CopiedItems(source, Str(listId), userId, now))
  {
    var found := TemplateOr404(db.templates, templateId, userId);
    if found.Err? {
      return Err(found.error);
    }
    var template := db.templates[found.value].doc;
    var templateItems := TemplateItemsOf(db.templateItems, templateId, userId);

    var list := Row(listId, ListDoc(userId, NewListName(payload, template), Some(templateId), now, now));
    db.InsertList(list);
    var newListId := Str(listId);

    var itemDocs := CopyTemplateItems(templateItems, newListId, userId, now);
    if itemDocs != [] {
      InsertManyKeepsDistinct(db.items, itemIds, itemDocs);
      db.items := db.items + WithIds(itemIds, itemDocs);
    } else {
      assert db.items + WithIds(itemIds, itemDocs) == db.items;
    }
    r := Ok(list);
  }

  /** A newly created template answers with exactly the items sent with it:
      the response items are a reordering of the inserted rows, so there is
      one per payload item. It assumes no stored item already names the new
      id. */
  lemma {:induction false} CreatedTemplateListsItsItems(
    stored: seq<Row<TemplateItemDoc>>, ids: seq<ObjectId>, items: seq<TemplateItemCreate>,
    templateId: string, userId: string, now: Time)
    requires |ids| == |items|
    requires forall k :: 0 <= k < |stored| ==> stored[k].doc.templateId != templateId
    ensures multiset(SortedTemplateItems(stored + WithIds(ids, NewTemplateItems(items, templateId, userId, now)), templateId, userId))
         == multiset(WithIds(ids, NewTemplateItems(items, templateId, userId, now)))
    ensures |SortedTemplateItems(stored + WithIds(ids, NewTemplateItems(items, templateId, userId, now)), templateId, userId)|
         == |items|
  {
    var added := WithIds(ids, NewTemplateItems(items, templateId, userId, now));
    var p := InTemplate(templateId, userId);
    FilterAppend(stored, added, p);
    FilterNone(stored, p);
    FilterAll(added, p);
  }

  /** The items of a list made from a template are exactly the copies: the
      new list's item filter (`list_id` and user) finds one row per template
      item, in the order they were copied. It assumes no stored item already
      names the new list's id. */
  lemma {:induction false} CreatedListHoldsCopies(
    stored: seq<Row<ItemDoc>>, ids: seq<ObjectId>, source: seq<Row<TemplateItemDoc>>,
    listId: string, userId: string, now: Time)
    requires |ids| == |source|
    requires forall k :: 0 <= k < |stored| ==> stored[k].doc.listId != listId
    ensures Filter(stored + WithIds(ids, CopiedItems(source, listId, userId, now)), Lists.InList(listId, userId))
         == WithIds(ids, CopiedItems(source, listId, userId, now))
    ensures |Filter(stored + WithIds(ids, CopiedItems(source, listId, userId, now)), Lists.InList(listId, userId))|
         == |source|
  {
    var added := WithIds(ids, CopiedItems(source, listId, userId, now));
    var p := Lists.InList(listId, userId);
    FilterAppend(stored, added, p);
    FilterNone(stored, p);
    FilterAll(added, p);
  }
}
