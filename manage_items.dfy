/** The item server's `ManageItemsController`: the caller is named by the `X-User-ID` header
    the gateway sets, and every mutation is guarded by `_id` and owner together. */
module ManageItems {
  import opened Http
  import opened ItemStore

  /** The JSON body fields the handlers read; `userId` names the owner of a new item. */
  datatype ItemBody = ItemBody(
    itemName: Option<string>, itemPrice: Option<string>, description: Option<string>,
    category: Option<string>, userId: Option<string>)

  /** An item as `showAllItemsFromUser` lists it. */
  datatype FormattedItem = FormattedItem(
    itemObjectId: string, itemName: string, itemPrice: string, description: string, category: string)

  datatype ItemReply =
    | Doc(doc: ItemDoc)
    | Message(message: string)
    | NoBody
    | Formatted(formatted: seq<FormattedItem>, message: string)
    | Items(items: seq<ItemDoc>, message: string)

  /** Mongoose's `required` check on a string field: present and not empty. */
  predicate SchemaAccepts(itemName: Option<string>, itemPrice: Option<string>, description: Option<string>, owner: Option<string>)
  {
    Truthy(itemName) && Truthy(itemPrice) && Truthy(description) && Truthy(owner)
  }

  /** `CategoryModel.findOne({ name })` for a name that may be absent; an absent name finds none. */
  function CategoryNamed(categories: seq<Category>, name: Option<string>): (r: Option<Category>)
    ensures r.Some? ==> name.Some? && r.value in categories && r.value.name == name.value
    ensures name.Some? && r.None? ==> forall c :: c in categories ==> c.name != name.value
  {
    if name.None? then None else FindCategoryByName(categories, name.value)
  }

  predicate AllMissing(body: ItemBody)
  {
    !Truthy(body.itemName) && !Truthy(body.itemPrice) && !Truthy(body.description) && !Truthy(body.category)
  }

  /** `createItem`, shared by both item controllers, which differ only in whose id becomes the
      owner. A body missing all four fields is refused with 400, an unknown category with 400,
      and a record the schema refuses with a plain error; otherwise one item, with the fresh
      id, the body's texts, the owner and the category's id, is appended and answered 201. */
  method CreateItem(db: Database, body: ItemBody, owner: Option<string>, freshId: string)
    returns (outcome: Outcome<ItemReply>)
    requires db.Valid() && forall x :: x in db.items ==> x.id != freshId
    modifies db
    ensures db.Valid() && db.categories == old(db.categories)
    ensures AllMissing(body) ==>
      outcome == Next(HttpError(Some(400), "Missing required fields.")) && db.items == old(db.items)
    ensures !AllMissing(body) && CategoryNamed(db.categories, body.category).None? ==>
      outcome == Next(HttpError(Some(400), "Invalid category")) && db.items == old(db.items)
    ensures (!AllMissing(body) && CategoryNamed(db.categories, body.category).Some?
             && !SchemaAccepts(body.itemName, body.itemPrice, body.description, owner)) ==>
        outcome.Next? && ClientStatus(outcome) == 500 && db.items == old(db.items)
    ensures (!AllMissing(body) && CategoryNamed(db.categories, body.category).Some?
             && SchemaAccepts(body.itemName, body.itemPrice, body.description, owner)) ==>
        var doc := ItemDoc(freshId, body.itemName.value, body.itemPrice.value, body.description.value,
                           owner.value, CategoryNamed(db.categories, body.category).value.id);
        && db.items == old(db.items) + [doc]
        && outcome == Respond(201, Doc(doc))
  {
    if AllMissing(body) {
      return Next(HttpError(Some(400), "Missing required fields."));
    }
    var category := CategoryNamed(db.categories, body.category);
    if category.None? {
      return Next(HttpError(Some(400), "Invalid category"));
    }
    if !SchemaAccepts(body.itemName, body.itemPrice, body.description, owner) {
      return Next(HttpError(None, "ValidationError"));
    }
    var doc := ItemDoc(freshId, body.itemName.value, body.itemPrice.value, body.description.value,
                       owner.value, category.value.id);
    db.Create(doc);
    outcome := Respond(201, Doc(doc));
  }

  /** The update `updateTheWholeItem` applies: the four texts and the category's id. */
  function FullUpdate(body: ItemBody, categoryId: string): ItemUpdate
  {
    ItemUpdate(body.itemName, body.itemPrice, body.description, Some(categoryId))
  }

  predicate AllPresent(body: ItemBody)
  {
    Truthy(body.itemName) && Truthy(body.itemPrice) && Truthy(body.description) && Truthy(body.category)
  }

  /** `updateTheWholeItem`. The checks run in order: the header (401), all four fields (400),
      the category (400), then ownership of the item (404); only when all pass are the four
      fields of the caller's item replaced. A refusal changes nothing. */
  method UpdateTheWholeItem(db: Database, userId: Option<string>, itemId: string, body: ItemBody)
    returns (outcome: Outcome<ItemReply>)
    requires db.Valid()
    modifies db
    ensures db.Valid() && db.categories == old(db.categories)
    ensures !Truthy(userId) ==> outcome == Respond(401, Message("User ID not provided")) && db.items == old(db.items)
    ensures Truthy(userId) && !AllPresent(body) ==>
      outcome == Respond(400, Message("Missing required fields.")) && db.items == old(db.items)
    ensures Truthy(userId) && AllPresent(body) && CategoryNamed(db.categories, body.category).None? ==>
      outcome == Respond(400, Message("Invalid category")) && db.items == old(db.items)
    ensures (Truthy(userId) && AllPresent(body) && CategoryNamed(db.categories, body.category).Some?
             && FindOwned(old(db.items), itemId, userId.value).None?) ==>
        && outcome == Respond(404, Message("Item not found or you do not have permission to update it."))
        && db.items == old(db.items)
    ensures (Truthy(userId) && AllPresent(body) && CategoryNamed(db.categories, body.category).Some?
             && FindOwned(old(db.items), itemId, userId.value).Some?) ==>
        var u := FullUpdate(body, CategoryNamed(db.categories, body.category).value.id);
        && db.items == UpdateOwned(old(db.items), itemId, userId.value, u)
        && outcome == Respond(200, Doc(Apply(old(db.items)[FindOwned(old(db.items), itemId, userId.value).value], u)))
  {
    if !Truthy(userId) {
      return Respond(401, Message("User ID not provided"));
    }
    if !AllPresent(body) {
      return Respond(400, Message("Missing required fields."));
    }
    var category := CategoryNamed(db.categories, body.category);
    if category.None? {
      return Respond(400, Message("Invalid category"));
    }
    var existingItem := FindOwned(db.items, itemId, userId.value);
    if existingItem.None? {
      return Respond(404, Message("Item not found or you do not have permission to update it."));
    }
    var updated := db.FindOneAndUpdate(itemId, userId.value, FullUpdate(body, category.value.id));
    outcome := Respond(200, Doc(updated.value));
  }

  /** `partialUpdateOneItem`: 401 without the header, 400 without a truthy `itemPrice`;
      otherwise only the price of the caller's item changes (200), or nothing does (404). */
  method PartialUpdateOneItem(db: Database, userId: Option<string>, itemId: string, itemPrice: Option<string>)
    returns (outcome: Outcome<ItemReply>)
    requires db.Valid()
    modifies db
    ensures db.Valid() && db.categories == old(db.categories)
    ensures !Truthy(userId) ==> outcome == Respond(401, Message("User ID not provided")) && db.items == old(db.items)
    ensures Truthy(userId) && !Truthy(itemPrice) ==>
      outcome == Respond(400, Message("Item price is required for partial update.")) && db.items == old(db.items)
    ensures Truthy(userId) && Truthy(itemPrice) ==>
      db.items == UpdateOwned(old(db.items), itemId, userId.value, PriceUpdate(itemPrice.value))
    ensures Truthy(userId) && Truthy(itemPrice) && FindOwned(old(db.items), itemId, userId.value).None? ==>
      outcome == Respond(404, Message("Item not found or you do not have permission to update it."))
    ensures Truthy(userId) && Truthy(itemPrice) && FindOwned(old(db.items), itemId, userId.value).Some? ==>
      outcome == Respond(200, Doc(old(db.items)[FindOwned(old(db.items), itemId, userId.value).value].(itemPrice := itemPrice.value)))
  {
    if !Truthy(userId) {
      return Respond(401, Message("User ID not provided"));
    }
    if !Truthy(itemPrice) {
      return Respond(400, Message("Item price is required for partial update."));
    }
    var partialUpdateItem := db.FindOneAndUpdate(itemId, userId.value, PriceUpdate(itemPrice.value));
    if partialUpdateItem.None? {
      return Respond(404, Message("Item not found or you do not have permission to update it."));
    }
    outcome := Respond(200, Doc(partialUpdateItem.value));
  }

  /** `deleteOneItem`: 401 without the header; otherwise the caller's item is removed (204),
      or nothing is (404). */
  method DeleteOneItem(db: Database, userId: Option<string>, itemId: string) returns (outcome: Outcome<ItemReply>)
    requires db.Valid()
    modifies db
    ensures db.Valid() && db.categories == old(db.categories)
    ensures !Truthy(userId) ==> outcome == Respond(401, Message("User ID not provided")) && db.items == old(db.items)
    ensures Truthy(userId) ==> db.items == DeleteOwned(old(db.items), itemId, userId.value)
    ensures Truthy(userId) ==>
      (outcome == Respond(204, NoBody) <==> FindOwned(old(db.items), itemId, userId.value).Some?)
    ensures Truthy(userId) && FindOwned(old(db.items), itemId, userId.value).None? ==>
      outcome == Respond(404, Message("Item not found or you do not have permission to delete it."))
  {
    if !Truthy(userId) {
      return Respond(401, Message("User ID not provided"));
    }
    var deletedItem := db.FindOneAndDelete(itemId, userId.value);
    if deletedItem.None? {
      return Respond(404, Message("Item not found or you do not have permission to delete it."));
    }
    outcome := Respond(204, NoBody);
  }

  function Format(item: ItemDoc): FormattedItem
  {
    FormattedItem(item.id, item.itemName, item.itemPrice, item.description, item.category)
  }

  function FormatAll(items: seq<ItemDoc>): (r: seq<FormattedItem>)
    ensures |r| == |items|
    ensures forall i :: 0 <= i < |items| ==> r[i] == Format(items[i])
  {
    if items == [] then [] else FormatAll(items[..|items| - 1]) + [Format(items[|items| - 1])]
  }

  /** `showAllItemsFromUser` for the user in the path: 404 when the user owns nothing, else
      every item the user owns, and only those, in store order, formatted. */
  function ShowAllItemsFromUser(items: seq<ItemDoc>, userId: string): (r: Outcome<ItemReply>)
    ensures r.Respond?
    ensures r.status == 404 <==> forall x :: x in items ==> x.owner != userId
    ensures r.status == 404 ==> r.body == Message("No items found for this user.")
    ensures r.status != 404 ==>
      && r.status == 200 && r.body.Formatted? && r.body.message == "User items fetching successful!"
      && forall f :: f in r.body.formatted <==> exists x :: x in items && x.owner == userId && f == Format(x)
  {
    var userItems := OwnedBy(items, userId);
    if |userItems| == 0 then
      assert forall x :: x in items ==> x !in userItems;
      Respond(404, Message("No items found for this user."))
    else
      var formatted := FormatAll(userItems);
      assert forall f :: f in formatted <==> exists x :: x in userItems && f == Format(x) by {
        forall f ensures f in formatted <==> exists x :: x in userItems && f == Format(x) {
          if f in formatted {
            var i :| 0 <= i < |formatted| && formatted[i] == f;
            assert userItems[i] in userItems;
          }
          if exists x :: x in userItems && f == Format(x) {
            var x :| x in userItems && f == Format(x);
            var i :| 0 <= i < |userItems| && userItems[i] == x;
            assert formatted[i] == f;
          }
        }
      }
      assert userItems[0] in items;
      Respond(200, Formatted(formatted, "User items fetching successful!"))
  }
}
