# Shopping-list backend: a Dafny model

This project models the core of a small FastAPI + MongoDB shopping-list service, where every user works only on their own data:

- users sign in with a Google ID token;
- users keep shopping lists and their items;
- users keep reusable templates and their items, and can turn a template into a fresh list;
- an operator task approves or un-approves a user by email.

The model covers:

- the routers for items, lists and templates;
- the authentication dependency;
- the approval task;
- the helpers `to_object_id` and `serialize_doc`;
- the request schemas.

It proves:

- every lookup is scoped to the caller, and a malformed id gives 400;
- a partial update writes only the fields that were sent;
- an update that sends nothing writes nothing;
- `purchased` holds exactly when `purchased_at` is set;
- deletes cascade completely;
- listings are sorted, and each is a reordering of exactly the matching documents;
- a list made from a template holds one copy per template item;
- there is one user per Google subject;
- `to_object_id(str(oid))` gives back `oid`;
- toggling an item or a user's approval twice restores the flag.

How the model is built:

- **Store.** The database is a `Db.Store` object with one field per collection. Each collection is a sequence of rows in natural (insertion) order.
  - `find_one` is the first matching row.
  - `find` keeps the matching rows in order.
  - `sort` is an insertion sort on the sort key.
  - `insert_one` / `insert_many` append.
  - `update_one` replaces one row.
  - `delete_one` / `delete_many` remove rows.
- **Handlers.** Each handler that changes the database is a method that takes the store `db` and modifies only the collections it writes. It is proved against a function that gives the new collection. Read-only handlers are functions.
- **Errors.** Every handler returns `Ok(value)` or an `HttpError` with its status and detail text.
- **Outside values.** The two things the handlers get from outside are parameters: the wall clock (`utcnow()`) and the ids the driver assigns. The ids are required to be fresh.
- **ObjectId.** An ObjectId is twelve bytes.
  - `str(oid)` is its 24 lower-case hex digits.
  - `ObjectId(s)` accepts exactly 24 hex digits of either case.
  - Stored `list_id` / `template_id` fields hold the path string exactly as the client sent it. The model keeps that: an id spelled in upper case finds the list, but files its items under the upper-case string.
- **Payloads.** A request body is a JSON value. Each payload parser returns the pydantic model or a 422 error. An update payload records which fields were sent (`model_fields_set`) as `Field.Unset` / `Field.Set(value)`.

The tests of the repository expect two behaviours that the code does not have:

- a 403 "Account pending approval." gate in `get_current_user`;
- a list-item reorder endpoint.

The model follows the code and does not have them either.

## Model

| member | source | states |
|---|---|---|
| Utils.Str | app/utils.py:23 | `str(oid)` is 24 lower-case hex digits |
| Utils.HexChar | app/utils.py:23 | each digit value below 16 has one lower-case hex character, and that character reads back as the value |
| Utils.ToObjectId | app/utils.py:12-16 | succeeds exactly on 24 hex digits; otherwise 400 with detail "Invalid {name}." |
| Utils.FromHexOfHex | app/utils.py:12-16 | decoding the hex form of any byte string gives back the bytes |
| Utils.HexOfFromHex | app/utils.py:12-16 | printing a decoded hex string gives its lower-case spelling |
| Utils.ObjectIdRoundTrip | app/utils.py:12-16 | `to_object_id(str(oid), name)` is `oid` |
| Utils.StrOfParsed | app/utils.py:12-16 | a valid id string denotes the ObjectId whose `str` is its lower-case form, so case variants name the same id |
| Utils.SerializeDoc | app/utils.py:19-24 | an empty or missing document gives `{}`; otherwise `_id` is gone, `id` is `str(_id)` and every other key keeps its value; a non-empty document without `_id` fails |
| Utils.SerializedIdParses | app/utils.py:19-24 | a document whose `_id` is an ObjectId serialises, and its `id` parses back to that ObjectId |
| Schemas.RequiredName | app/schemas.py:21 | a required name is accepted exactly when it is a string of 1 to 200 characters |
| Schemas.OptionalName | app/schemas.py:26 | an optional name is unset when absent, null when sent as null, and otherwise accepted only as a string of 1 to 200 characters |
| Schemas.OptionalText | app/schemas.py:22 | an optional string field is unset when absent, and is rejected exactly when sent as neither null nor a string |
| Schemas.OptionalFloat | app/schemas.py:40 | an optional float is unset when absent; it accepts null, floats and integers and rejects everything else |
| Schemas.OptionalInt | app/schemas.py:47 | an optional integer is unset when absent, and is rejected exactly when sent as neither null nor an integer |
| Schemas.OptionalBool | app/schemas.py:48 | an optional boolean is unset when absent, and is rejected exactly when sent as neither null nor a boolean |
| Schemas.SortOrderOrZero | app/schemas.py:41 | `sort_order` defaults to 0 when absent and must otherwise be an integer |
| Schemas.ObjectBody | app/schemas.py:7-8 | a payload must be a JSON object |
| Schemas.ParseListCreate | app/schemas.py:20-22 | accepted exactly when the body is an object with a valid name and a string or null `template_id`; holds the sent name and `template_id`, null when absent |
| Schemas.ParseListUpdate | app/schemas.py:25-26 | accepted exactly when the body is an object whose name, if sent, is null or valid; holds the sent name, null when absent |
| Schemas.ParseItemCreate | app/schemas.py:38-41 | accepted exactly when the object's name, `qty`, `unit` and `sort_order` all validate; holds the sent values, with `qty` and `unit` null and `sort_order` 0 when absent |
| Schemas.ParseItemUpdate | app/schemas.py:44-48 | accepted exactly when every sent field validates; the field set is exactly the known keys sent, and each sent field holds the value sent; a sent name is valid |
| Schemas.AbsentFieldNotSet | app/schemas.py:44-48 | a field is in the update's field set if and only if the body sent it |
| Schemas.ParseTemplateItemCreate | app/schemas.py:68-71 | accepted exactly when the object's name, `qty`, `unit` and `sort_order` all validate; holds the sent values, with `qty` and `unit` null and `sort_order` 0 when absent |
| Schemas.ParseTemplateItemUpdate | app/schemas.py:74-77 | accepted exactly when every sent field validates; the field set is exactly the known keys sent, and each sent field holds the value sent; a sent name is valid |
| Schemas.ParseTemplateItems | app/schemas.py:93 | a list of template items parses exactly when every element does, element by element |
| Schemas.ParseTemplateCreate | app/schemas.py:91-93 | accepted exactly when the name is valid and `items`, if sent, is an array whose every element validates; holds the sent name, and one parsed item per element in order (none when absent) |
| Schemas.ParseTemplateUpdate | app/schemas.py:96-97 | accepted exactly when a sent name is null or valid; `name` is in the field set exactly when sent and holds the value sent |
| Schemas.ParseCreateListFromTemplate | app/schemas.py:112-113 | accepted exactly when a sent name is null or valid; holds the sent name, null when absent |
| Db.FirstMatch | app/routers/items.py:12-14 | `find_one`: the first row in natural order that matches, or none when no row matches |
| Db.Filter | app/routers/lists.py:22 | `find`: exactly the matching rows, as a sub-multiset of the collection |
| Db.FilterKeepsDistinct | app/routers/lists.py:85 | `delete_many` keeps `_id`s unique |
| Db.FilterAppend | app/routers/templates.py:257-259 | finding after an append finds in the two parts separately |
| Db.FilterAll | app/routers/templates.py:257-259 | a filter every row passes keeps the whole collection |
| Db.FilterNone | app/routers/templates.py:257-259 | a filter no row passes finds nothing |
| Db.ConsKeepsDistinct | app/routers/lists.py:85 | putting a row with a new `_id` in front keeps `_id`s unique |
| Db.AppendKeepsDistinct | app/routers/lists.py:41 | `insert_one` with a fresh `_id` keeps `_id`s unique |
| Db.Store.InsertList | app/routers/lists.py:41 | `lists.insert_one` with a fresh `_id` appends exactly that row and keeps the invariant |
| Db.Store.InsertTemplate | app/routers/templates.py:65 | `templates.insert_one` with a fresh `_id` appends exactly that row and keeps the invariant |
| Db.WithIds | app/routers/templates.py:84 | `insert_many` stores the documents in order with the ids the driver assigns |
| Db.InsertManyKeepsDistinct | app/routers/templates.py:84 | `insert_many` with fresh, pairwise distinct ids keeps `_id`s unique |
| Db.RemoveAt | app/routers/items.py:78-80 | `delete_one` removes that one row and keeps the others in order |
| Db.RemoveAtKeepsDistinct | app/routers/items.py:78-80 | after `delete_one` the removed `_id` is gone and all others remain |
| Db.ReplaceKeepsIds | app/routers/items.py:46-49 | `update_one` keeps the collection's `_id`s |
| Db.Insert | app/routers/lists.py:94-96 | inserting into a sorted sequence keeps it sorted and adds exactly that row |
| Db.SameMembers | app/routers/lists.py:94-96 | two permutations have the same elements |
| Db.SortRows | app/routers/lists.py:94-96 | `sort` returns a permutation of its input ordered by the key |
| Db.Store.constructor | app/db.py:22 | an empty database satisfies the invariant (unique `_id`s, one user per `google_sub`, purchase flags consistent) |
| Items.ItemOr404 | app/routers/items.py:11-17 | 400 "Invalid item_id." for a malformed id; found exactly when the caller owns an item with that id, else 404 "Item not found." |
| Items.PatchedItem | app/routers/items.py:28-49 | fields not sent keep their values; each sent field (name, qty, unit, sort_order, purchased) holds the value sent; nothing sent means no change; otherwise `updated_at` is now; `purchased` true stamps `purchased_at`, falsy clears it; purchase consistency is preserved |
| Items.CollectItemChanges | app/routers/items.py:28-39 | the `updates` dict holds exactly the fields the request sent, with `purchased_at` set alongside a sent `purchased` |
| Items.ChangesMatchPatch | app/routers/items.py:28-49 | the `$set` is empty exactly when no field was sent, and otherwise writes exactly the patched item |
| Items.ApplyItemChanges | app/routers/items.py:46-49 | the `$set` writes exactly the fields it carries and keeps every other field; an empty `$set` changes nothing |
| Items.ToggledItem | app/routers/items.py:58-64 | the flag becomes the negation of its truthiness (missing counts as false); `purchased_at` is the purchase clock reading when the flag is now on and null otherwise; `updated_at` is now; nothing else changes |
| Items.ToggleTwiceRestores | app/routers/items.py:58-64 | toggling twice restores the flag's truthiness |
| Items.UpdateItem | app/routers/items.py:20-51 | lookup errors change nothing; otherwise exactly the caller's item becomes its patched form and is returned; the store invariant holds |
| Items.ToggleItem | app/routers/items.py:54-70 | lookup errors change nothing; otherwise exactly that item is toggled and returned |
| Items.DeleteItem | app/routers/items.py:73-81 | lookup errors change nothing; otherwise exactly that row is removed and the caller no longer owns an item with that id |
| Lists.ListOr404 | app/routers/lists.py:11-17 | 400 "Invalid list_id."; found exactly when the caller owns the list, else 404 "List not found." |
| Lists.ListLists | app/routers/lists.py:20-24 | exactly the caller's lists, most recently updated first |
| Lists.GetList | app/routers/lists.py:46-51 | the caller's list with that id, or the lookup's error |
| Lists.CreateList | app/routers/lists.py:27-43 | appends one list owned by the caller with the payload's name and template id and `created_at == updated_at` |
| Lists.UpdateList | app/routers/lists.py:54-74 | a null or missing name writes nothing and returns the stored list; a name writes the name and a new `updated_at` only |
| Lists.DeleteList | app/routers/lists.py:77-86 | removes the list and every item of the caller filed under that `list_id`, and keeps every other item |
| Lists.ListItems | app/routers/lists.py:89-98 | the lookup's error, or exactly the caller's items of that list sorted by `sort_order` (null first) then `created_at` |
| Lists.NewItem | app/routers/lists.py:110-121 | a new item is unpurchased with no purchase time, owned by the caller, in that list, and stores the payload's name, `qty`, `unit` and `sort_order` with `created_at == updated_at == now` |
| Lists.CreateItem | app/routers/lists.py:101-124 | the list must be the caller's; otherwise appends exactly the new unpurchased item |
| Lists.CreateItemAsDeclared | app/routers/lists.py:115 | with `ItemCreate` as declared, creating an item always fails: the lookup's error, or 500 once the list is found |
| Templates.TemplateOr404 | app/routers/templates.py:21-27 | 400 "Invalid template_id."; found exactly when the caller owns the template, else 404 "Template not found." |
| Templates.TemplateItemOr404 | app/routers/templates.py:30-42 | 400 "Invalid template_item_id."; found exactly when the caller owns an item with that id under that `template_id`, else 404 |
| Templates.SortedTemplateItems | app/routers/templates.py:100-102 | exactly the caller's items of the template, sorted by `sort_order` then `created_at` |
| Templates.ListTemplates | app/routers/templates.py:45-49 | exactly the caller's templates, most recently updated first |
| Templates.GetTemplate | app/routers/templates.py:95-106 | the lookup's error, or the caller's template whose id is the requested one, with its sorted items |
| Templates.ListTemplateItems | app/routers/templates.py:146-155 | the lookup's error, or exactly the template's items, each stored row once at most, in sort order |
| Templates.NewTemplateItem | app/routers/templates.py:71-82 | a payload item is stored under the new template with its fields and the template's timestamp |
| Templates.NewTemplateItems | app/routers/templates.py:69-82 | one stored document per payload item, in order |
| Templates.BuildTemplateItems | app/routers/templates.py:69-82 | the loop builds exactly those documents |
| Templates.CreateTemplate | app/routers/templates.py:52-92 | appends the template and one item per payload item, with the driver's ids and one shared timestamp; answers with the template's items sorted |
| Templates.CreatedTemplateListsItsItems | app/routers/templates.py:84-92 | the items a new template answers with are a reordering of exactly the inserted ones, one per payload item |
| Templates.CreateTemplateAsDeclared | app/routers/templates.py:77 | with the schemas as declared, the template is stored, and the request fails with 500 exactly when items were sent |
| Templates.UpdateTemplate | app/routers/templates.py:109-129 | a missing name writes nothing; a sent name (even null) writes it and a new `updated_at` |
| Templates.DeleteTemplate | app/routers/templates.py:132-143 | removes the template and every item of the caller under that `template_id`, and keeps every other item |
| Templates.CreateTemplateItem | app/routers/templates.py:158-183 | the template must be the caller's; otherwise appends exactly the new template item |
| Templates.CreateTemplateItemAsDeclared | app/routers/templates.py:176 | with `TemplateItemCreate` as declared, the request always fails: the lookup's error, or 500 |
| Templates.PatchedTemplateItem | app/routers/templates.py:196-211 | fields not sent keep their values; nothing sent means no change; otherwise `updated_at` is now |
| Templates.CollectTemplateItemChanges | app/routers/templates.py:196-205 | the `updates` dict holds exactly the fields the request sent |
| Templates.TemplateChangesMatchPatch | app/routers/templates.py:196-220 | the `$set` is empty exactly when no field was sent, and otherwise writes exactly the patched template item |
| Templates.ApplyTemplateItemChanges | app/routers/templates.py:212-220 | the `$set` writes exactly the fields it carries and keeps every other field; an empty `$set` changes nothing |
| Templates.UpdateTemplateItem | app/routers/templates.py:186-223 | the template, then the item, must be the caller's; otherwise exactly that item becomes its patched form |
| Templates.DeleteTemplateItem | app/routers/templates.py:226-242 | both lookups must succeed; then exactly that item is removed |
| Templates.CopiedItem | app/routers/templates.py:276-289 | a copied item keeps the template item's name, qty, unit and sort order, and is unpurchased in the new list at `now` |
| Templates.CopiedItems | app/routers/templates.py:273-290 | one copy per template item, in the order they were read |
| Templates.CopyTemplateItems | app/routers/templates.py:273-290 | the loop builds exactly those copies |
| Templates.NewListName | app/routers/templates.py:264 | the payload's non-empty name wins; otherwise the template's name |
| Templates.TemplateItemsOf | app/routers/templates.py:257-259 | exactly the caller's items of that template, each stored row once at most |
| Templates.CreateListFromTemplate | app/routers/templates.py:245-292 | the lookup's error changes nothing; otherwise appends the named list with `template_id` set and one copy per template item with the driver's ids |
| Templates.CreatedListHoldsCopies | app/routers/templates.py:273-290 | the new list's items are exactly the copies, one per template item |
| Auth.LowerChar | app/auth.py:15 | lower-casing changes only the letters A to Z |
| Auth.TrimStart | app/auth.py:18 | removes exactly the leading whitespace |
| Auth.TrimEnd | app/auth.py:18 | removes exactly the trailing whitespace |
| Auth.Strip | app/auth.py:18 | `strip()` is the slice left after whitespace is removed at both ends, and it neither starts nor ends with whitespace |
| Auth.StripIdempotent | app/auth.py:18 | stripping twice is stripping once |
| Auth.FirstSpace | app/auth.py:18 | the position of the first space |
| Auth.AfterFirstSpace | app/auth.py:18 | `split(" ", 1)[1]` is a suffix of the header |
| Auth.TokenFollowsPrefix | app/auth.py:15-18 | after a `bearer ` prefix the token is everything past the seventh character |
| Auth.ParseBearer | app/auth.py:15-20 | a token exists exactly when the header is present, starts with "bearer " in any case, and has a non-blank remainder; otherwise 401 "Missing Google ID token." |
| Auth.Authenticate | app/auth.py:15-34 | succeeds exactly when the header parses, the verifier accepts the token and the issuer is Google's; each failure is the matching 401 |
| Auth.LoggedIn | app/auth.py:37-43 | `$set` overwrites email, name, avatar and last login; subject, creation time and approval are kept |
| Auth.SignedUp | app/auth.py:37-48 | an inserted user has the token's subject and profile, `created_at == last_login_at == now` and no approval |
| Auth.Upserted | app/auth.py:50-55 | with no user for the subject, the signed-up user is appended; otherwise the first user with it becomes its logged-in form and every other row is unchanged |
| Auth.UpsertKeepsOneUserPerSub | app/auth.py:50-55 | after the upsert there is still at most one user per subject, and exactly one has the caller's |
| Auth.LogIn | app/auth.py:36-55 | the users collection becomes the upsert of the claims; the returned user has the caller's subject and this login |
| Auth.GetCurrentUser | app/auth.py:11-57 | authentication errors change nothing; otherwise the caller is upserted |
| Tasks.ApprovalToggled | app/tasks.py:24-26 | `approved` becomes the negation of its stored value (missing counts as false); nothing else changes |
| Tasks.ApprovalToggledByEmail | app/tasks.py:20-33 | the collection keeps its length, ids and emails; there is an answer exactly when some user has the email |
| Tasks.ToggleChangesOnlyApproval | app/tasks.py:19-33 | with no user with that email, nothing changes and the answer is none; otherwise only the first such user's flag flips and the answer is its new value |
| Tasks.ToggleTwiceRestores | app/tasks.py:19-33 | two toggles restore the flag's truthiness |
| Tasks.ToggleUserApprovedByEmail | app/tasks.py:19-33 | the collection and the answer are those of the toggle |

## Left out

- HTTP routing, dependency injection, status-code plumbing, the lazy client in `app/db.py` and the start-up code in `app/main.py` / `app/config.py` are I/O.
- MongoDB's secondary indexes are left out. Only the unique index on `google_sub` appears, as part of the store invariant.
- Response-model validation (`ListOut`, `ItemOut`, `TemplateItemOut`, …) is not modelled. Handlers return the stored row. The output defaults `purchased=False` and `sort_order=0`, and the 500 that validation raises for a stored null required field, are not modelled.
- Google token verification is a foreign call. It is the parameter `verify` (`None` when it raises). The printed log line on failure is output.
- The header value's decoding by the HTTP server is left out. The header is taken as given.
- Auth.LowerChar: lowers only the ASCII letters. That is exact for the comparison with "bearer " that it serves, because no other character lowers to one of those letters or to a space.
- The typer command that wraps the approval task, and its client life cycle, are I/O. So is its exit code.
- The `users` router is not part of this model.
- A list-item reorder endpoint exists only in the tests and in the `ReorderListItems` schema; no handler implements it.
- The 403 "Account pending approval." gate exists only in the tests; `get_current_user` never checks `approved`.
- Concurrency is left out. Each handler runs as one step, although the source's fetch-then-write and insert-then-insert-many sequences are not atomic.
- `utcnow()` is the parameter `now`. Timestamps are integers.
- The time zone of `utcnow()` is not modelled.
- `update_item` and `toggle_item` read the clock twice. Both readings are parameters (`purchaseTime`, `now`).
- `qty` is an opaque real; no floating-point arithmetic is done on it.
- pydantic's lax-mode coercions are left out: numeric strings to numbers, "true" to booleans, and whole floats to integers. The parsers accept only values of the declared JSON type, with integers widened to floats.
- Unknown payload keys are ignored, as pydantic does.
- `bytes.fromhex` skips whitespace between digit pairs, and `ObjectId` accepts a 12-byte `bytes` value. Neither is modelled; an id string is valid exactly when it is 24 hex digits.
- `serialize_doc` is modelled on a generic document of simple values. The routers return typed rows that already carry their id.
- The copy `serialize_doc` makes, which leaves its argument untouched, is automatic in a functional model.
- MongoDB does not specify the order of rows with equal sort keys. The model fixes one stable order, and its properties hold for every sorted permutation.
- A stored document with a missing key is the same as one holding null. The model never writes a document without every key.
- Integers are unbounded. pymongo refuses to encode an integer outside the signed 64-bit range (OverflowError, a 500). The model accepts and stores any `sort_order`, so the 500 that `create_item`, `update_item`, `create_template`, `create_template_item` and `update_template_item` give for such a value is not modelled.
- Schemas.ParseItemCreate / Schemas.ParseTemplateItemCreate: parse the `unit` that the handlers read, which the classes as declared lack (see Findings). With the declared classes a sent `unit` is ignored and the create handlers fail.
- Schemas.ParseItemUpdate / Schemas.ParseTemplateItemUpdate: model the schemas with the `unit` field the handlers read (see Findings). With the classes as declared, a `unit` sent in a PATCH is silently dropped.

## Findings

| source | as written | input that shows it | evidently intended | confidence | as-written member | corrected member |
|---|---|---|---|---|---|---|
| app/routers/lists.py:115 | `create_item` reads `payload.unit`, but `ItemCreate` (app/schemas.py:38-41) declares no `unit`, so the attribute access raises and the request fails with 500 | `POST /lists/{id}/items` with `{"name": "milk"}` on the caller's list | `ItemCreate` carries an optional `unit`, stored with the item | high (not executed) | Lists.CreateItemAsDeclared | Lists.CreateItem |
| app/routers/templates.py:77 | `create_template` inserts the template, then reads `item.unit` on the first payload item and raises: the template is stored without items and the request fails with 500 | `POST /templates` with `{"name": "week", "items": [{"name": "milk"}]}` | `TemplateItemCreate` carries an optional `unit`; the template and all its items are stored | high (not executed) | Templates.CreateTemplateAsDeclared | Templates.CreateTemplate |
| app/routers/templates.py:176 | `create_template_item` reads `payload.unit` after the template lookup and fails with 500 | `POST /templates/{id}/items` with `{"name": "milk"}` on the caller's template | the new template item is stored with its optional `unit` | high (not executed) | Templates.CreateTemplateItemAsDeclared | Templates.CreateTemplateItem |
