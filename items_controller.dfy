/** The item server's older `ItemsController`: the caller is the authenticated `req.user`
    (given here by its `userID`), errors mostly go to the error handler through `next`, and
    the full update finds the item by owner but writes it by id alone. */
module ItemsController {
  import opened Http
  import opened ItemStore
  import opened ManageItems

  /** `showAllItemsFromUser` for the logged-in user: a 404 error when the user owns nothing,
      else every item the user owns, and only those, in store order. */
  function ShowAllItemsFromUser(items: seq<ItemDoc>, userId: string): (r: Outcome<ItemReply>)
    ensures r.Next? <==> forall x :: x in items ==> x.owner != userId
    ensures r.Next? ==> r == Next(HttpError(Some(404), "No items found for this user."))
    ensures !r.Next? ==>
      && r.Respond? && r.status == 200 && r.body.Items? && r.body.message == "Users items fetching successful!"
      && forall x :: x in r.body.items <==> x in items && x.owner == userId
  {
    var userItems := OwnedBy(items, userId);
    if |userItems| == 0 then
      assert forall x :: x in items ==> x !in userItems;
      Next(HttpError(Some(404), "No items found for this user."))
    else
      assert userItems[0] in items;
      Respond(200, Items(userItems, "Users items fetching successful!"))
  }

  /** `createItem`: as in the other controller, with the logged-in user as the owner. */
  method CreateItem(db: Database, body: ItemBody, loggedInUser: string, freshId: string)
    returns (outcome: Outcome<ItemReply>)
    requires db.Valid() && forall x :: x in db.items ==> x.id != freshId
    modifies db
    ensures db.Valid() && db.categories == old(db.categories)
    ensures AllMissing(body) ==>
      outcome == Next(HttpError(Some(400), "Missing required fields.")) && db.items == old(db.items)
    ensures !AllMissing(body) && CategoryNamed(db.categories, body.category).None? ==>
      outcome == Next(HttpError(Some(400), "Invalid category")) && db.items == old(db.items)
    ensures (!AllMissing(body) && CategoryNamed(db.categories, body.category).Some?
             && !SchemaAccepts(body.itemName, body.itemPrice, body.description, Some(loggedInUser))) ==>
        outcome.Next? && ClientStatus(outcome) == 500 && db.items == old(db.items)
    ensures (!AllMissing(body) && CategoryNamed(db.categories, body.category).Some?
             && SchemaAccepts(body.itemName, body.itemPrice, body.description, Some(loggedInUser))) ==>
        var doc := ItemDoc(freshId, body.itemName.value, body.itemPrice.value, body.description.value,
                           loggedInUser, CategoryNamed(db.categories, body.category).value.id);
        && db.items == old(db.items) + [doc]
        && outcome == Respond(201, Doc(doc))
  {
    outcome := ManageItems.CreateItem(db, body, Some(loggedInUser), freshId);
  }

  /** `updateTheWholeItem`. Only a body missing all four fields is refused (400); then an item
      the caller does not own is a 404 error whatever the category, and only for an owned item
      is an unknown category answered 400. On success the owned item, and no other, gets the
      given fields and the category's id; a field absent from the body keeps its value. */
  method UpdateTheWholeItem(db: Database, userId: string, itemId: string, body: ItemBody)
    returns (outcome: Outcome<ItemReply>)
    requires db.Valid()
    modifies db
    ensures db.Valid() && db.categories == old(db.categories)
    ensures AllMissing(body) ==>
      outcome == Next(HttpError(Some(400), "Missing required fields.")) && db.items == old(db.items)
    ensures !AllMissing(body) && FindOwned(old(db.items), itemId, userId).None? ==>
      && outcome == Next(HttpError(Some(404), "The requested resource was not found or you do not have permission to update it."))
      && db.items == old(db.items)
    ensures (!AllMissing(body) && FindOwned(old(db.items), itemId, userId).Some?
             && CategoryNamed(db.categories, body.category).None?) ==>
        outcome == Respond(400, Message("Invalid category")) && db.items == old(db.items)
    ensures (!AllMissing(body) && FindOwned(old(db.items), itemId, userId).Some?
             && CategoryNamed(db.categories, body.category).Some?) ==>
        var u := FullUpdate(body, CategoryNamed(db.categories, body.category).value.id);
        && db.items == UpdateOwned(old(db.items), itemId, userId, u)
        && outcome == Respond(200, Doc(Apply(old(db.items)[FindOwned(old(db.items), itemId, userId).value], u)))
  {
    if AllMissing(body) {
      return Next(HttpError(Some(400), "Missing required fields."));
    }
    var item := FindOwned(db.items, itemId, userId);
    if item.None? {
      return Next(HttpError(Some(404), "The requested resource was not found or you do not have permission to update it."));
    }
    var category := CategoryNamed(db.categories, body.category);
    if category.None? {
      return Respond(400, Message("Invalid category"));
    }
    UpdateByIdOfOwned(db.items, itemId, userId, FullUpdate(body, category.value.id));
    var updateItem := db.FindByIdAndUpdate(itemId, FullUpdate(body, category.value.id));
    outcome := Respond(200, Doc(updateItem.value));
  }

  /** `partialUpdateOneItem`: 400 without a truthy `itemPrice`; otherwise only the price of the
      caller's item changes (200), or nothing does (404). */
  method PartialUpdateOneItem(db: Database, userId: string, itemId: string, itemPrice: Option<string>)
    returns (outcome: Outcome<ItemReply>)
    requires db.Valid()
    modifies db
    ensures db.Valid() && db.categories == old(db.categories)
    ensures !Truthy(itemPrice) ==>
      outcome == Respond(400, Message("Item price is required for partial update.")) && db.items == old(db.items)
    ensures Truthy(itemPrice) ==>
      db.items == UpdateOwned(old(db.items), itemId, userId, PriceUpdate(itemPrice.value))
    ensures Truthy(itemPrice) && FindOwned(old(db.items), itemId, userId).None? ==>
      outcome == Respond(404, Message("Item not found or you do not have permission to update it."))
    ensures Truthy(itemPrice) && FindOwned(old(db.items), itemId, userId).Some? ==>
      outcome == Respond(200, Doc(old(db.items)[FindOwned(old(db.items), itemId, userId).value].(itemPrice := itemPrice.value)))
  {
    if !Truthy(itemPrice) {
      return Respond(400, Message("Item price is required for partial update."));
    }
    var partialUpdateItem := db.FindOneAndUpdate(itemId, userId, PriceUpdate(itemPrice.value));
    if partialUpdateItem.None? {
      return Respond(404, Message("Item not found or you do not have permission to update it."));
    }
    outcome := Respond(200, Doc(partialUpdateItem.value));
  }

  /** `deleteOneItem`: the caller's item is removed (204), or nothing is (404). */
  method DeleteOneItem(db: Database, userId: string, itemId: string) returns (outcome: Outcome<ItemReply>)
    requires db.Valid()
    modifies db
    ensures db.Valid() && db.categories == old(db.categories)
    ensures db.items == DeleteOwned(old(db.items), itemId, userId)
    ensures outcome == Respond(204, NoBody) <==> FindOwned(old(db.items), itemId, userId).Some?
    ensures FindOwned(old(db.items), itemId, userId).None? ==>
      outcome == Respond(404, Message("Item not found or you do not have permission to delete it."))
  {
    var deletedItem := db.FindOneAndDelete(itemId, userId);
    if deletedItem.None? {
      return Respond(404, Message("Item not found or you do not have permission to delete it."));
    }
    outcome := Respond(204, NoBody);
  }

  /** A user of the directory, with the items the store holds for that user's id. */
  datatype UserWithItems = UserWithItems(user: User, items: seq<ItemDoc>)

  datatype UsersBody = UsersBody(users: seq<UserWithItems>, message: string)

  function WithOwnedItems(users: seq<User>, items: seq<ItemDoc>): (r: seq<UserWithItems>)
    ensures |r| == |users|
    ensures forall i :: 0 <= i < |users| ==> r[i].user == users[i]
    ensures forall i, x :: 0 <= i < |users| ==> (x in r[i].items <==> x in items && x.owner == users[i].id)
  {
    if users == [] then []
    else WithOwnedItems(users[..|users| - 1], items) + [UserWithItems(users[|users| - 1], OwnedBy(items, users[|users| - 1].id))]
  }

  /** `getAllUsersWithItems` (the same in both item controllers apart from the user
      directory's URL): a non-OK answer from the user directory, or one without a `users`
      list, is an error; otherwise one entry per user, in directory order, holding exactly
      the items that user owns. */
  function GetAllUsersWithItems(items: seq<ItemDoc>, usersReply: Reply<Option<seq<User>>>): (r: Outcome<UsersBody>)
    ensures !IsOk(usersReply.status) ==> r == Next(HttpError(None, "Failed to fetch users from auth server"))
    ensures IsOk(usersReply.status) && usersReply.body.None? ==> r.Next? && ClientStatus(r) == 500
    ensures IsOk(usersReply.status) && usersReply.body.Some? ==>
      var users := usersReply.body.value;
      && r.Respond? && r.status == 200
      && r.body.message == "All users and their items retrieved successfully."
      && |r.body.users| == |users|
      && (forall i :: 0 <= i < |users| ==> r.body.users[i].user == users[i])
      && forall i, x :: 0 <= i < |users| ==> (x in r.body.users[i].items <==> x in items && x.owner == users[i].id)
  {
    if !IsOk(usersReply.status) then Next(HttpError(None, "Failed to fetch users from auth server"))
    else if usersReply.body.None? then Next(HttpError(None, TypeErrorMessage))
    else Respond(200, UsersBody(WithOwnedItems(usersReply.body.value, items), "All users and their items retrieved successfully."))
  }
}
