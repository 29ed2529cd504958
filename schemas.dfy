/** app/schemas.py: the request payloads, their defaults, which fields a
    request sent (pydantic's `model_fields_set`) and the name-length rule.
    Validation failures are pydantic's 422. */
module Schemas {
  import opened Common

  /** A decoded JSON request body. */
  datatype Json =
    | JNull
    | JBool(b: bool)
    | JInt(i: int)
    | JFloat(f: real)
    | JStr(s: string)
    | JArray(elems: seq<Json>)
    | JObject(fields: map<string, Json>)

  const MinNameLength: nat := 1
  const MaxNameLength: nat := 200

  /** `Field(min_length=1, max_length=200)` on a name. */
  predicate ValidName(s: string) {
    MinNameLength <= |s| <= MaxNameLength
  }

  function Invalid<T>(field: string): (r: Result<T>)
    ensures r.Err? && r.error.code == Unprocessable
  {
    Err(HttpError(Unprocessable, "Invalid value for " + field + "."))
  }

  // ---------------------------------------------------------------------
  // One field of a body, as pydantic validates it.

  /** A required name: `name: str = Field(min_length=1, max_length=200)`. */
  function RequiredName(body: map<string, Json>): (r: Result<string>)
    ensures r.Ok? <==> "name" in body && body["name"].JStr? && ValidName(body["name"].s)
    ensures r.Ok? ==> body["name"] == JStr(r.value)
  {
    if "name" in body && body["name"].JStr? && ValidName(body["name"].s) then Ok(body["name"].s)
    else Invalid("name")
  }

  /** An optional name: `Optional[str] = Field(default=None, min_length=1, max_length=200)`;
      null is accepted, a string must satisfy the length rule. */
  function OptionalName(body: map<string, Json>): (r: Result<Field<Option<string>>>)
    ensures r.Ok? && r.value.Unset? <==> "name" !in body
    ensures r.Ok? && r.value == Set(None) <==> "name" in body && body["name"] == JNull
    ensures r.Ok? && r.value.Set? && r.value.value.Some? <==>
      "name" in body && body["name"].JStr? && ValidName(body["name"].s)
    ensures r.Ok? && r.value.Set? && r.value.value.Some? ==> body["name"] == JStr(r.value.value.value)
  {
    if "name" !in body then Ok(Unset)
    else match body["name"]
      case JNull => Ok(Set(None))
      case JStr(s) => if ValidName(s) then Ok(Set(Some(s))) else Invalid("name")
      case _ => Invalid("name")
  }

  /** `Optional[str] = None`. */
  function OptionalText(body: map<string, Json>, key: string): (r: Result<Field<Option<string>>>)
    ensures r.Ok? && r.value.Unset? <==> key !in body
    ensures r.Err? <==> key in body && !body[key].JNull? && !body[key].JStr?
    ensures r.Ok? && r.value.Set? ==> body[key] == (if r.value.value.Some? then JStr(r.value.value.value) else JNull)
  {
    if key !in body then Ok(Unset)
    else match body[key]
      case JNull => Ok(Set(None))
      case JStr(s) => Ok(Set(Some(s)))
      case _ => Invalid(key)
  }

  /** `Optional[float] = None`: a JSON integer is widened to a float. */
  function OptionalFloat(body: map<string, Json>, key: string): (r: Result<Field<Option<real>>>)
    ensures r.Ok? && r.value.Unset? <==> key !in body
    ensures r.Err? <==> key in body && !body[key].JNull? && !body[key].JFloat? && !body[key].JInt?
    ensures r.Ok? && r.value == Set(None) <==> key in body && body[key] == JNull
    ensures r.Ok? && r.value.Set? ==> r.value.value == SentNumber(body, key)
  {
    if key !in body then Ok(Unset)
    else match body[key]
      case JNull => Ok(Set(None))
      case JFloat(f) => Ok(Set(Some(f)))
      case JInt(i) => Ok(Set(Some(i as real)))
      case _ => Invalid(key)
  }

  /** `Optional[int] = None`. */
  function OptionalInt(body: map<string, Json>, key: string): (r: Result<Field<Option<int>>>)
    ensures r.Ok? && r.value.Unset? <==> key !in body
    ensures r.Err? <==> key in body && !body[key].JNull? && !body[key].JInt?
    ensures r.Ok? && r.value.Set? ==> body[key] == (if r.value.value.Some? then JInt(r.value.value.value) else JNull)
  {
    if key !in body then Ok(Unset)
    else match body[key]
      case JNull => Ok(Set(None))
      case JInt(i) => Ok(Set(Some(i)))
      case _ => Invalid(key)
  }

  /** `Optional[bool] = None`. */
  function OptionalBool(body: map<string, Json>, key: string): (r: Result<Field<Option<bool>>>)
    ensures r.Ok? && r.value.Unset? <==> key !in body
    ensures r.Err? <==> key in body && !body[key].JNull? && !body[key].JBool?
    ensures r.Ok? && r.value.Set? ==> body[key] == (if r.value.value.Some? then JBool(r.value.value.value) else JNull)
  {
    if key !in body then Ok(Unset)
    else match body[key]
      case JNull => Ok(Set(None))
      case JBool(b) => Ok(Set(Some(b)))
      case _ => Invalid(key)
  }

  /** `sort_order: int = 0`: absent means 0, null is rejected. */
  function SortOrderOrZero(body: map<string, Json>): (r: Result<int>)
    ensures "sort_order" !in body ==> r == Ok(0)
    ensures "sort_order" in body ==> (r.Ok? <==> body["sort_order"].JInt?)
    ensures "sort_order" in body && r.Ok? ==> body["sort_order"] == JInt(r.value)
  {
    if "sort_order" !in body then Ok(0)
    else match body["sort_order"]
      case JInt(i) => Ok(i)
      case _ => Invalid("sort_order")
  }

  /** The value a field holds once validated: its default when it was not sent. */
  function ValueOr<T>(f: Field<Option<T>>): Option<T> {
    match f
    case Unset => None
    case Set(v) => v
  }

  // ---------------------------------------------------------------------
  // Payloads. `unit` is carried on item payloads as the handlers read it;
  // the schemas as declared in app/schemas.py lack it (see Findings in the
  // README and the *AsDeclared shapes below).

  datatype ListCreate = ListCreate(name: string, templateId: Option<string>)
  datatype ListUpdate = ListUpdate(name: Option<string>)
  datatype ItemCreate = ItemCreate(name: string, qty: Option<real>, unit: Option<string>, sortOrder: int)
  datatype ItemUpdate = ItemUpdate(
    name: Field<Option<string>>,
    qty: Field<Option<real>>,
    unit: Field<Option<string>>,
    sortOrder: Field<Option<int>>,
    purchased: Field<Option<bool>>)
  datatype TemplateItemCreate = TemplateItemCreate(name: string, qty: Option<real>, unit: Option<string>, sortOrder: int)
  datatype TemplateItemUpdate = TemplateItemUpdate(
    name: Field<Option<string>>,
    qty: Field<Option<real>>,
    unit: Field<Option<string>>,
    sortOrder: Field<Option<int>>)
  datatype TemplateCreate = TemplateCreate(name: string, items: seq<TemplateItemCreate>)
  datatype TemplateUpdate = TemplateUpdate(name: Field<Option<string>>)
  datatype CreateListFromTemplate = CreateListFromTemplate(name: Option<string>)

  /** `ItemCreate` and `TemplateItemCreate` exactly as declared: no `unit`. */
  datatype ItemCreateAsDeclared = ItemCreateAsDeclared(name: string, qty: Option<real>, sortOrder: int)
  datatype TemplateCreateAsDeclared = TemplateCreateAsDeclared(name: string, items: seq<ItemCreateAsDeclared>)

  const ItemUpdateFields: set<string> := {"name", "qty", "unit", "sort_order", "purchased"}
  const TemplateItemUpdateFields: set<string> := {"name", "qty", "unit", "sort_order"}

  /** `model_fields_set` of an item update. */
  function ItemFieldsSet(u: ItemUpdate): set<string> {
    (if u.name.Set? then {"name"} else {})
    + (if u.qty.Set? then {"qty"} else {})
    + (if u.unit.Set? then {"unit"} else {})
    + (if u.sortOrder.Set? then {"sort_order"} else {})
    + (if u.purchased.Set? then {"purchased"} else {})
  }

  function TemplateItemFieldsSet(u: TemplateItemUpdate): set<string> {
    (if u.name.Set? then {"name"} else {})
    + (if u.qty.Set? then {"qty"} else {})
    + (if u.unit.Set? then {"unit"} else {})
    + (if u.sortOrder.Set? then {"sort_order"} else {})
  }

  function ObjectBody(body: Json): (r: Result<map<string, Json>>)
    ensures r.Ok? <==> body.JObject?
    ensures r.Ok? ==> r.value == body.fields
  {
    if body.JObject? then Ok(body.fields) else Invalid("body")
  }

  // ---------------------------------------------------------------------
  // What a body sent, read directly off its keys: the values a validated
  // payload must hold.

  /** The string sent under `key`; `None` when the key is absent or null. */
  function SentText(fields: map<string, Json>, key: string): Option<string> {
    if key in fields && fields[key].JStr? then Some(fields[key].s) else None
  }

  /** The number sent under `key`, an integer read as a float. */
  function SentNumber(fields: map<string, Json>, key: string): Option<real> {
    if key !in fields then None
    else match fields[key]
      case JFloat(f) => Some(f)
      case JInt(i) => Some(i as real)
      case _ => None
  }

  function SentInt(fields: map<string, Json>, key: string): Option<int> {
    if key in fields && fields[key].JInt? then Some(fields[key].i) else None
  }

  function SentBool(fields: map<string, Json>, key: string): Option<bool> {
    if key in fields && fields[key].JBool? then Some(fields[key].b) else None
  }

  /** An optional field of an update: unset when the key was not sent. */
  function SentField<T>(fields: map<string, Json>, key: string, v: Option<T>): Field<Option<T>> {
    if key in fields then Set(v) else Unset
  }

  // ---------------------------------------------------------------------
  // Body -> payload. Keys the schema does not declare are ignored; a body is
  // accepted exactly when it is an object and every declared field is.

  function ParseListCreate(body: Json): (r: Result<ListCreate>)
    ensures r.Ok? <==> body.JObject? && RequiredName(body.fields).Ok? && OptionalText(body.fields, "template_id").Ok?
    ensures r.Ok? ==> body.JObject? && ValidName(r.value.name)
    ensures r.Ok? ==> r.value == ListCreate(SentText(body.fields, "name").value, SentText(body.fields, "template_id"))
  {
    var obj :- ObjectBody(body);
    var name :- RequiredName(obj);
    var templateId :- OptionalText(obj, "template_id");
    Ok(ListCreate(name, ValueOr(templateId)))
  }

  function ParseListUpdate(body: Json): (r: Result<ListUpdate>)
    ensures r.Ok? <==> body.JObject? && OptionalName(body.fields).Ok?
    ensures r.Ok? && r.value.name.Some? ==> ValidName(r.value.name.value)
    ensures r.Ok? ==> body.JObject? && r.value == ListUpdate(SentText(body.fields, "name"))
  {
    var obj :- ObjectBody(body);
    var name :- OptionalName(obj);
    Ok(ListUpdate(ValueOr(name)))
  }

  function ParseItemCreate(body: Json): (r: Result<ItemCreate>)
    ensures r.Ok? <==> body.JObject? && RequiredName(body.fields).Ok? && OptionalFloat(body.fields, "qty").Ok?
                       && OptionalText(body.fields, "unit").Ok? && SortOrderOrZero(body.fields).Ok?
    ensures r.Ok? ==> body.JObject? && ValidName(r.value.name)
    ensures r.Ok? ==>
      r.value == ItemCreate(SentText(body.fields, "name").value, SentNumber(body.fields, "qty"),
                            SentText(body.fields, "unit"), SentInt(body.fields, "sort_order").GetOr(0))
  {
    var obj :- ObjectBody(body);
    var name :- RequiredName(obj);
    var qty :- OptionalFloat(obj, "qty");
    var unit :- OptionalText(obj, "unit");
    var sortOrder :- SortOrderOrZero(obj);
    Ok(ItemCreate(name, ValueOr(qty), ValueOr(unit), sortOrder))
  }

  function ParseItemUpdate(body: Json): (r: Result<ItemUpdate>)
    ensures r.Ok? <==> body.JObject? && OptionalName(body.fields).Ok? && OptionalFloat(body.fields, "qty").Ok?
                       && OptionalText(body.fields, "unit").Ok? && OptionalInt(body.fields, "sort_order").Ok?
                       && OptionalBool(body.fields, "purchased").Ok?
    ensures r.Ok? ==> body.JObject? && ItemFieldsSet(r.value) == body.fields.Keys * ItemUpdateFields
    ensures r.Ok? && r.value.name.Set? && r.value.name.value.Some? ==> ValidName(r.value.name.value.value)
    ensures r.Ok? ==>
      var f := body.fields;
      r.value == ItemUpdate(SentField(f, "name", SentText(f, "name")), SentField(f, "qty", SentNumber(f, "qty")),
                            SentField(f, "unit", SentText(f, "unit")), SentField(f, "sort_order", SentInt(f, "sort_order")),
                            SentField(f, "purchased", SentBool(f, "purchased")))
  {
    var obj :- ObjectBody(body);
    var name :- OptionalName(obj);
    var qty :- OptionalFloat(obj, "qty");
    var unit :- OptionalText(obj, "unit");
    var sortOrder :- OptionalInt(obj, "sort_order");
    var purchased :- OptionalBool(obj, "purchased");
    Ok(ItemUpdate(name, qty, unit, sortOrder, purchased))
  }

  function ParseTemplateItemCreate(body: Json): (r: Result<TemplateItemCreate>)
    ensures r.Ok? <==> body.JObject? && RequiredName(body.fields).Ok? && OptionalFloat(body.fields, "qty").Ok?
                       && OptionalText(body.fields, "unit").Ok? && SortOrderOrZero(body.fields).Ok?
    ensures r.Ok? ==> body.JObject? && ValidName(r.value.name)
    ensures r.Ok? ==>
      r.value == TemplateItemCreate(SentText(body.fields, "name").value, SentNumber(body.fields, "qty"),
                                    SentText(body.fields, "unit"), SentInt(body.fields, "sort_order").GetOr(0))
  {
    var obj :- ObjectBody(body);
    var name :- RequiredName(obj);
    var qty :- OptionalFloat(obj, "qty");
    var unit :- OptionalText(obj, "unit");
    var sortOrder :- SortOrderOrZero(obj);
    Ok(TemplateItemCreate(name, ValueOr(qty), ValueOr(unit), sortOrder))
  }

  function ParseTemplateItemUpdate(body: Json): (r: Result<TemplateItemUpdate>)
    ensures r.Ok? <==> body.JObject? && OptionalName(body.fields).Ok? && OptionalFloat(body.fields, "qty").Ok?
                       && OptionalText(body.fields, "unit").Ok? && OptionalInt(body.fields, "sort_order").Ok?
    ensures r.Ok? ==> body.JObject? && TemplateItemFieldsSet(r.value) == body.fields.Keys * TemplateItemUpdateFields
    ensures r.Ok? && r.value.name.Set? && r.value.name.value.Some? ==> ValidName(r.value.name.value.value)
    ensures r.Ok? ==>
      var f := body.fields;
      r.value == TemplateItemUpdate(SentField(f, "name", SentText(f, "name")), SentField(f, "qty", SentNumber(f, "qty")),
                                    SentField(f, "unit", SentText(f, "unit")), SentField(f, "sort_order", SentInt(f, "sort_order")))
  {
    var obj :- ObjectBody(body);
    var name :- OptionalName(obj);
    var qty :- OptionalFloat(obj, "qty");
    var unit :- OptionalText(obj, "unit");
    var sortOrder :- OptionalInt(obj, "sort_order");
    Ok(TemplateItemUpdate(name, qty, unit, sortOrder))
  }

  /** Every element of the `items` array must validate; one bad element rejects the body. */
  function ParseTemplateItems(elems: seq<Json>): (r: Result<seq<TemplateItemCreate>>)
    ensures r.Ok? <==> forall k :: 0 <= k < |elems| ==> ParseTemplateItemCreate(elems[k]).Ok?
    ensures r.Ok? ==> |r.value| == |elems|
    ensures r.Ok? ==> forall k :: 0 <= k < |elems| ==> r.value[k] == ParseTemplateItemCreate(elems[k]).value
  {
    if elems == [] then Ok([])
    else
      var first :- ParseTemplateItemCreate(elems[0]);
      var rest :- ParseTemplateItems(elems[1..]);
      Ok([first] + rest)
  }

  function ParseTemplateCreate(body: Json): (r: Result<TemplateCreate>)
    ensures r.Ok? <==> body.JObject? && RequiredName(body.fields).Ok?
                       && ("items" in body.fields ==>
                             body.fields["items"].JArray? && ParseTemplateItems(body.fields["items"].elems).Ok?)
    ensures r.Ok? ==> body.JObject? && ValidName(r.value.name)
    ensures r.Ok? ==> r.value.name == SentText(body.fields, "name").value
    ensures r.Ok? && "items" !in body.fields ==> r.value.items == []
    ensures r.Ok? && "items" in body.fields ==>
      && |r.value.items| == |body.fields["items"].elems|
      && forall k :: 0 <= k < |r.value.items| ==> r.value.items[k] == ParseTemplateItemCreate(body.fields["items"].elems[k]).value
  {
    var obj :- ObjectBody(body);
    var name :- RequiredName(obj);
    if "items" !in obj then Ok(TemplateCreate(name, []))
    else match obj["items"]
      case JArray(elems) =>
        var items :- ParseTemplateItems(elems);
        Ok(TemplateCreate(name, items))
      case _ => Invalid("items")
  }

  function ParseTemplateUpdate(body: Json): (r: Result<TemplateUpdate>)
    ensures r.Ok? <==> body.JObject? && OptionalName(body.fields).Ok?
    ensures r.Ok? ==> body.JObject? && (r.value.name.Set? <==> "name" in body.fields)
    ensures r.Ok? && r.value.name.Set? && r.value.name.value.Some? ==> ValidName(r.value.name.value.value)
    ensures r.Ok? ==> r.value == TemplateUpdate(SentField(body.fields, "name", SentText(body.fields, "name")))
  {
    var obj :- ObjectBody(body);
    var name :- OptionalName(obj);
    Ok(TemplateUpdate(name))
  }

  function ParseCreateListFromTemplate(body: Json): (r: Result<CreateListFromTemplate>)
    ensures r.Ok? <==> body.JObject? && OptionalName(body.fields).Ok?
    ensures r.Ok? && r.value.name.Some? ==> ValidName(r.value.name.value)
    ensures r.Ok? ==> body.JObject? && r.value == CreateListFromTemplate(SentText(body.fields, "name"))
  {
    var obj :- ObjectBody(body);
    var name :- OptionalName(obj);
    Ok(CreateListFromTemplate(ValueOr(name)))
  }

  /** A field that a body leaves out is not in the update's field set, so the
      handler will not write it; sending it, even as null, puts it there. */
  lemma {:induction false} AbsentFieldNotSet(body: Json, key: string)
    requires ParseItemUpdate(body).Ok? && key in ItemUpdateFields
    ensures key in ItemFieldsSet(ParseItemUpdate(body).value) <==> key in body.fields
  {
    assert body.JObject?;
    assert ItemFieldsSet(ParseItemUpdate(body).value) == body.fields.Keys * ItemUpdateFields;
  }
}
