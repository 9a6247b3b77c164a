# Second-hand store: gateway and item server, modelled in Dafny

The store is made of small Express services. The gateway fronts an item server, which holds
items and categories in MongoDB, and an account service, which holds the user directory.
This project models the in-process logic of three parts of the store and proves what it
promises:

- **Webhook and favourites registry** of the gateway (`Webhooks`, `WebhookRouter`). This is a
  class with a webhook map, its iteration order and a favourites index. The price-change
  fan-out makes one delivery attempt per registered webhook, and the outcome of each POST is
  an input.
- **Gateway controllers** (`GatewayItems`, `GatewayItemsLegacy`, `GatewayCategories`). The
  item-id loader, the listing URL, seller enrichment, the users-with-items merge, grouping
  items by category, and the status relays. Upstream replies are inputs, and every handler
  reports the upstream calls it made. `QueryString` splits the listing URL the gateway builds
  back into its `key=value` pairs. It does no percent-decoding, so what it reads agrees with
  the item server only for text without `%` and `+`.
- **Item server** (`ItemStore`, `Price`, `ItemListing`, `ManageItems`, `ItemsController`).
  The collections are a `Database` class over sequences, and `parseFloat` is modelled over
  reals. The modules cover the listing pipeline (category, skip/limit, price range, sort by
  price, totals) and the ownership-guarded create, update and delete of both item
  controllers.

`Http` holds what the modules share:
- optional request fields and JavaScript truthiness;
- `response.ok`;
- the outcome of a handler: answer, `next(error)` or `next()`;
- the error handler's `err.status || 500`;
- the decimal text of a number.

The two gateway category controllers, and the loader, user listing and merge of the two
gateway item controllers, are the same code apart from their base URLs. Each is modelled
once, and its row names both copies. `getAllUsersWithItems` is also the same in the two
item-server controllers apart from the user directory's URL.

## Model

| member | source | states |
|---|---|---|
| Webhooks.WebhookManager.constructor | gateway-server/src/utils/webhook-manager.js:17-20 | a new manager has no webhooks, an empty iteration order and no favourites |
| Webhooks.WebhookManager.RegisterWebhook | gateway-server/src/utils/webhook-manager.js:28-32 | the id is the decimal text of the clock reading; the registry maps it to the URL and every other id keeps its URL; a reused id is overwritten in place; favourites are unchanged |
| Webhooks.WebhookManager.AddFavorite | gateway-server/src/utils/webhook-manager.js:40-45 | the user joins the item's set, which is created on first use; every other item's set and the registry are unchanged; sets stay free of repeats |
| Webhooks.AddToSet | gateway-server/src/utils/webhook-manager.js:44 | set insertion: the result holds exactly the old members plus the new one, has no repeats, and is unchanged when the member was already there |
| Webhooks.AddFavoriteIdempotent | gateway-server/src/utils/webhook-manager.js:40-45 | a second identical `addFavorite` leaves the favourites index unchanged |
| Webhooks.Notifications | gateway-server/src/utils/webhook-manager.js:61-64 | one notification per favouriting user, in their order, each with the message "Price of item with id : … has changed to … kr" |
| Webhooks.PriceChangePayload | gateway-server/src/utils/webhook-manager.js:57-71 | the posted body carries the item id and the new price as given, and one notification per favouriting user, each with the price-change message |
| Webhooks.PayloadNamesExactlyTheSubscribers | gateway-server/src/utils/webhook-manager.js:57-64 | a user is notified if and only if the user favourited the item, and at most once |
| Webhooks.UnfavouritedItemHasEmptyNotifications | gateway-server/src/utils/webhook-manager.js:57 | an item nobody favourited yields an empty notification list, and the payload is still built |
| Webhooks.WebhookManager.NotifyPriceChange | gateway-server/src/utils/webhook-manager.js:54-78 | exactly one attempt per registered webhook, in registry order, to its URL, all with the same body; a failed delivery does not stop the loop; neither map changes |
| WebhookRouter.Register | gateway-server/src/routers/api/v1/webhook-router.js:59-65 | a missing or empty `url` is answered 400 'Webhook URL is required' and the manager is unchanged; otherwise the URL is registered under the new id, which is appended to the registry order if new and keeps its place if reused, and 201 carries the id |
| WebhookRouter.Favorite | gateway-server/src/routers/api/v1/webhook-router.js:115-121 | a missing `userId` or `itemObjectId` is answered 400 and favourites are unchanged; otherwise the user is added to that item's favourites only, and 200 'Item added to favorites' is answered |
| Http.Decimal | gateway-server/src/utils/webhook-manager.js:29 | the decimal text of a number is all digits, non-empty and without a leading zero |
| Http.DecimalRoundTrip | gateway-server/src/utils/webhook-manager.js:29 | reading the decimal text back gives the number |
| Http.DecimalInjective | gateway-server/src/utils/webhook-manager.js:29-30 | different clock readings give different webhook ids; only equal readings overwrite each other |
| GatewayItems.IsItemIdentifier | gateway-server/src/controllers/manage-items-controller.js:28 | an id is accepted exactly when it has 24 characters, each a hexadecimal digit of either case |
| GatewayItems.LoadItemsDocument | gateway-server/src/controllers/manage-items-controller.js:27-55 | a malformed id gives a 404 'Invalid Identifier' error with no upstream call; an upstream 404 gives a 404 error; any other non-OK status gives an error naming that status; an OK reply is stored in `req.doc`, then `next()` is called; the decision is the one `LoaderOutcome` gives; the same code is at gateway-server/src/controllers/gateway-items-controller.js:21-49 |
| GatewayItems.LoaderClientStatus | gateway-server/src/controllers/manage-items-controller.js:28-43 | the client sees 404 for a malformed id or a missing item, 500 for any other upstream failure; the request goes on exactly when the id is well formed and the reply is OK |
| GatewayItems.ListingQueryRendersParams | gateway-server/src/controllers/manage-items-controller.js:67-73 | the query string built with `+=` is exactly the rendering of the intended list of parameters |
| GatewayItems.ListingKeys | gateway-server/src/controllers/manage-items-controller.js:67-73 | `page` and `limit` are always sent first, with defaults 1 and 10; then `category`, `minPrice` and `maxPrice`, each only when it is truthy, in that order |
| GatewayItems.ListingUrl | gateway-server/src/controllers/manage-items-controller.js:69-75 | the URL fetched is the items base, `/items?`, and the rendering of the intended parameter list |
| GatewayItems.ListingUrlRoundTrip | gateway-server/src/controllers/manage-items-controller.js:69-73 | when no key or value holds `&`, `=`, `%` or `+`, splitting the query gives back exactly the intended parameters, in order; on such text percent-decoding changes nothing |
| GatewayItems.MinPriceInjectsParameter | gateway-server/src/controllers/manage-items-controller.js:72 | `minPrice` is appended unencoded, so a value `a&k=w` is read by the item server as `minPrice=a` plus a separate parameter `k` with value `w` |
| QueryString.RenderParseRoundTrip | item-server/src/controllers/manage-items-controller.js:64 | a non-empty list of plain `key=value` pairs, rendered and parsed again, gives back the same pairs in the same order |
| GatewayItems.UserIndex | gateway-server/src/controllers/manage-items-controller.js:97 | every entry of the user map is a directory user stored under that user's own id |
| GatewayItems.UserIndexKeys | gateway-server/src/controllers/manage-items-controller.js:97 | the user map has a key exactly for the ids of the directory's users |
| GatewayItems.UserIndexLastWins | gateway-server/src/controllers/manage-items-controller.js:97 | for a repeated id, the map keeps the last user with that id |
| GatewayItems.WithSellers | gateway-server/src/controllers/manage-items-controller.js:97-116 | seller enrichment keeps the items' number and order; each item's seller is the username and email of the (last) directory user whose id is the item's owner, or null when there is none; the self link ends in `/api/v1/items/` and the item's id |
| GatewayItems.FetchAllItems | gateway-server/src/controllers/manage-items-controller.js:65-133 | the listing URL is fetched first; a missing page is a TypeError; a page without items is answered 200 with no items and the upstream pagination fields, and the directory is not fetched; otherwise the directory is fetched, every item is enriched, and the message falls back to 'Items fetching successful!' |
| GatewayItems.FetchUserItems | gateway-server/src/controllers/manage-items-controller.js:143-167 | without a user id: 401 and no upstream call; a non-OK reply is an error naming the status and text; an OK reply is relayed with 200; the same code is at gateway-server/src/controllers/gateway-items-controller.js:78-102 |
| GatewayItems.UpdateItemPartially | gateway-server/src/controllers/manage-items-controller.js:269-302 | without a user: 401, no PATCH and no webhook; a non-OK reply is relayed with its status and text, and no webhook is notified; after an OK reply, and only when `itemPrice` is truthy, every registered webhook gets the price-change payload, in registry order |
| GatewayItems.RemoveItem | gateway-server/src/controllers/manage-items-controller.js:312-340 | without a user: 401 and no DELETE; otherwise the upstream status is relayed, with an empty body exactly when it is 204 and with the upstream JSON otherwise |
| GatewayItems.MergeUsersWithItems | gateway-server/src/controllers/manage-items-controller.js:384-387 | one entry per directory user, in directory order; the items are those of the first item-server entry with the same id, or none when there is no such entry or it has no items |
| GatewayItems.FetchAllUsersWithItems | gateway-server/src/controllers/manage-items-controller.js:349-397 | a non-OK directory reply aborts, before the item server is asked, with 'Auth server responded with status <status>: <text>'; a non-OK item-server reply aborts with 'Items server responded with status <status>: <text>'; otherwise 200 with the merge and 'All users and their items retrieved successfully.'; the same code is at gateway-server/src/controllers/gateway-items-controller.js:247-295 |
| GatewayItemsLegacy.UpdateItemPartially | gateway-server/src/controllers/gateway-items-controller.js:186-213 | 401 without a user; a non-OK reply is relayed with its status and text; an OK reply is relayed with 200; no webhook is ever notified |
| GatewayItemsLegacy.RemoveItem | gateway-server/src/controllers/gateway-items-controller.js:223-238 | the DELETE is always forwarded, with no user check; the status is relayed, with an empty body exactly for 204 |
| GatewayItemsLegacy.RemoveMatchesCurrentWhenAuthenticated | gateway-server/src/controllers/gateway-items-controller.js:223-238 | with a user present, the older deletion answers exactly like the newer one |
| GatewayCategories.BucketMembers | gateway-server/src/controllers/manage-categories-controller.js:46-55 | a category's bucket holds an entry exactly for each item of that category: its name and the link `/items/` plus its id |
| GatewayCategories.BucketEmpty | gateway-server/src/controllers/manage-categories-controller.js:46-60 | a bucket is empty exactly when no item names that category |
| GatewayCategories.GroupByCategory | gateway-server/src/controllers/manage-categories-controller.js:46-55 | the accumulator has a key exactly for the category ids that some item carries, and each key's list holds that category's entries in item order; the same code is at gateway-server/src/controllers/gateway-category-controller.js:43-52 |
| GatewayCategories.Combine | gateway-server/src/controllers/manage-categories-controller.js:58-61 | one entry per category, in category order, named after it, with its bucket or `[]` |
| GatewayCategories.FetchAllCategories | gateway-server/src/controllers/manage-categories-controller.js:25-74 | without a `categories` list: 200 with no categories, and the items are not fetched; otherwise each category gets exactly the entries of its own items, in order, so an item of an unknown category appears nowhere; the same code is at gateway-server/src/controllers/gateway-category-controller.js:22-71 |
| GatewayCategories.CreateNewCategory | gateway-server/src/controllers/manage-categories-controller.js:84-109 | a non-OK reply is an error naming the status and text, answered 500; an OK reply is relayed with the item server's status; the same code is at gateway-server/src/controllers/gateway-category-controller.js:81-106 |
| GatewayCategories.GetCategoryById | gateway-server/src/controllers/manage-categories-controller.js:119-137 | upstream 404 is answered 404 'Category not found'; any other non-OK status is an error answered 500; OK is relayed with 200; the same code is at gateway-server/src/controllers/gateway-category-controller.js:116-134 |
| ItemStore.FindOwned | item-server/src/controllers/manage-items-controller.js:259-262 | `findOne` by `_id` and owner finds the first item with both, and finds none exactly when no item has both |
| ItemStore.UpdateOwned | item-server/src/controllers/manage-items-controller.js:270-279 | the ownership-guarded update keeps the number of items and every item's `_id` and owner |
| ItemStore.DeleteOwned | item-server/src/controllers/manage-items-controller.js:344-347 | the ownership-guarded delete removes at most one item and adds none: every remaining item was there before |
| ItemStore.UpdateTouchesOnlyOwned | item-server/src/controllers/manage-items-controller.js:270-279 | an ownership-guarded update changes at most the caller's item; order and length are kept; without such an item nothing changes |
| ItemStore.PriceUpdateOnlyChangesCallersPrice | item-server/src/controllers/manage-items-controller.js:309-313 | a partial update changes only the price, and only on the item whose id and owner match |
| ItemStore.DeleteRemovesOnlyOwned | item-server/src/controllers/manage-items-controller.js:344-347 | with unique ids, the delete removes exactly the caller's item: none with that id and owner remains, every other item stays, nothing is added, and ids stay unique |
| ItemStore.IndexOfId | item-server/src/controllers/items-controller.js:210 | `findById` finds the first item with the id, or none exactly when no item has it |
| ItemStore.UpdateById | item-server/src/controllers/items-controller.js:210-217 | the update by id keeps the number of items and every item's `_id` and owner |
| ItemStore.UpdateByIdOfOwned | item-server/src/controllers/items-controller.js:195-217 | once the caller's ownership is checked, and with unique ids, the update by id alone touches the same item as an ownership-guarded update |
| ItemStore.OwnedBy | item-server/src/controllers/manage-items-controller.js:122 | `find({ itemId })` returns exactly the owner's items |
| ItemStore.FindCategoryByName | item-server/src/controllers/manage-items-controller.js:70 | the category with that name, or none exactly when no category has it |
| ItemStore.Database.Create | item-server/src/controllers/manage-items-controller.js:180-186 | the new item is appended and ids stay unique |
| ItemStore.Database.FindOneAndUpdate | item-server/src/controllers/manage-items-controller.js:309-313 | the collection becomes the ownership-guarded update; the result is the updated item, or none when the caller owns no item with that id |
| ItemStore.Database.FindByIdAndUpdate | item-server/src/controllers/items-controller.js:210-217 | the collection becomes the update by id; the result is the updated item, or none |
| ItemStore.Database.FindOneAndDelete | item-server/src/controllers/manage-items-controller.js:344-347 | the collection becomes the ownership-guarded delete; the result is the deleted item, or none |
| Price.ParseFloat | item-server/src/controllers/manage-items-controller.js:84-86 | `parseFloat` gives a number only for text that holds a digit |
| Price.ParseFloatOfDecimal | item-server/src/controllers/manage-items-controller.js:84 | `parseFloat` of a whole number's decimal text is that number |
| Price.NonNumericIsNaN | item-server/src/controllers/manage-items-controller.js:84-85 | text that starts with no digit, sign, point or space (such as '' or 'free') is NaN |
| ItemListing.InCategory | item-server/src/controllers/manage-items-controller.js:67-76 | the query `{ category: id }` keeps exactly the items of that category, each at most as often as in the collection |
| ItemListing.Matching | item-server/src/controllers/manage-items-controller.js:66-76 | the store query returns only items of the collection, none twice |
| ItemListing.MatchingByCategory | item-server/src/controllers/manage-items-controller.js:69-76 | the category filter applies only when the name is given and a category has it; an unknown or missing name leaves the query unfiltered |
| ItemListing.Window | item-server/src/controllers/manage-items-controller.js:76-79 | the store page is the slice of the query's result starting at `skip`: element `i` is result item `skip + i`, and its length is the rest after `skip`, cut to `|limit|` unless `limit` is 0 (no limit) |
| ItemListing.WindowsTile | item-server/src/controllers/manage-items-controller.js:76-79 | two consecutive pages of size `limit` together are the page of size `2 * limit` starting at the first one's `skip` |
| ItemListing.PriceFilter | item-server/src/controllers/manage-items-controller.js:82-89 | the items kept are exactly those with a readable price within the given bounds |
| ItemListing.SortByPrice | item-server/src/controllers/manage-items-controller.js:92 | the result is ascending by price, is a permutation of the input, and keeps items of equal price in their input order, as the stable `Array.prototype.sort` does |
| ItemListing.SortByStable | item-server/src/controllers/manage-items-controller.js:92 | for every price, the items with that price come out of the sort in the order they went in |
| ItemListing.SamePriceKeepsStoreOrder | item-server/src/controllers/manage-items-controller.js:92 | items that all have the same price are listed exactly in store order |
| ItemListing.SortKeepsMembers | item-server/src/controllers/manage-items-controller.js:92 | sorting neither adds nor drops an item |
| ItemListing.FilterAndSort | item-server/src/controllers/manage-items-controller.js:82-92 | the page's items after the price filter (run only when a bound is given) and the sort: ascending by price, equal prices in page order, a permutation of the filtered page; with a bound exactly the in-range items, without one all of them |
| ItemListing.GetAllItems | item-server/src/controllers/manage-items-controller.js:62-108 | defaults page 1 and limit 10; a negative skip is an error; otherwise 200 with the store page's items, sorted by price, with equal prices in store order. With a price bound, the items are exactly those in range; without one, all of them. `currentPage` is the page, `totalItems` the number returned and `totalPages` its ceiling over the limit; the message depends on emptiness |
| ItemListing.CeilDiv | item-server/src/controllers/manage-items-controller.js:95 | `Math.ceil(n / d)`: the least integer whose multiple of a positive `d` reaches `n`, and the matching bound for a negative `d` |
| ItemListing.TotalPagesAtMostOne | item-server/src/controllers/manage-items-controller.js:94-95 | since `totalItems` counts the returned page only, `totalPages` is 0 or 1 for any positive limit |
| ItemListing.ListedPricesWithinRange | item-server/src/controllers/manage-items-controller.js:82-92 | with a price range, every listed item has a readable price at least `minPrice` and at most `maxPrice` |
| ManageItems.CategoryNamed | item-server/src/controllers/manage-items-controller.js:170 | a category is found only for a given name, and then it has that name |
| ManageItems.CreateItem | item-server/src/controllers/manage-items-controller.js:159-193 | 400 'Missing required fields.' only when all four fields are missing; 400 'Invalid category' for an unknown category; a record the schema refuses is an error answered 500; otherwise one item, owned by the body's `userId` and with the category's id, is appended and answered 201; refusals change nothing |
| ManageItems.UpdateTheWholeItem | item-server/src/controllers/manage-items-controller.js:240-287 | checks in order: header (401), any field missing (400), category (400), ownership (404), each refusal changing nothing; then only the caller's item gets the four fields, answered 200 |
| ManageItems.PartialUpdateOneItem | item-server/src/controllers/manage-items-controller.js:297-325 | 401 without the header, 400 without `itemPrice`; otherwise only the price of the caller's item changes (200), or nothing changes (404) |
| ManageItems.DeleteOneItem | item-server/src/controllers/manage-items-controller.js:335-360 | 401 without the header; otherwise the caller's item is removed and 204 answered exactly when it existed, else 404 |
| ManageItems.ShowAllItemsFromUser | item-server/src/controllers/manage-items-controller.js:118-149 | 404 exactly when the user owns nothing; otherwise the formatted view of exactly the user's items |
| ItemsController.ShowAllItemsFromUser | item-server/src/controllers/items-controller.js:83-104 | a 404 error exactly when the logged-in user owns nothing; otherwise exactly the items the user owns |
| ItemsController.CreateItem | item-server/src/controllers/items-controller.js:114-148 | as in the other controller, with the logged-in user as the owner |
| ItemsController.UpdateTheWholeItem | item-server/src/controllers/items-controller.js:186-225 | 400 only when all four fields are missing; ownership is checked before the category, so an item the caller does not own gives 404 whatever the category; then 400 for an unknown category; otherwise only the caller's item is updated, and absent fields keep their values |
| ItemsController.PartialUpdateOneItem | item-server/src/controllers/items-controller.js:235-256 | 400 without `itemPrice`; otherwise only the price of the caller's item changes (200), or nothing changes (404) |
| ItemsController.DeleteOneItem | item-server/src/controllers/items-controller.js:266-280 | the caller's item is removed and 204 answered exactly when it existed; otherwise 404 and nothing changes |
| ItemsController.WithOwnedItems | item-server/src/controllers/items-controller.js:305-311 | one entry per user, in order, holding exactly the items that user owns |
| ItemsController.GetAllUsersWithItems | item-server/src/controllers/items-controller.js:289-320 | a non-OK directory reply aborts with 'Failed to fetch users from auth server'; otherwise 200 with one entry per user, in order, holding exactly the items that user owns; the same code, apart from the directory URL, is at item-server/src/controllers/manage-items-controller.js:369-400 |

## Left out

- Network I/O, JSON parsing and response writing are not modelled: replies are input values, and a JSON body with a missing field is `None`.
- `encodeURIComponent` is a function parameter of the listing URL.
- The clock is a parameter: `Date.now()` becomes a natural number.
- Concurrency is not modelled: `Promise.all` and the sequential `await`s run in order.
- Console logging is left out.
- Every webhook delivery is one input result (a status or a thrown error); what the webhooks do with a delivery is not modelled.
- HATEOAS `_links` of whole responses, built from the request's protocol and host, are left out. Only each listed item's self link is kept, with the origin as an opaque string.
- `createdAt` and `updatedAt` timestamps are left out, and so are the user fields that `...user` spreads besides id, username and email.
- `parseFloat` is modelled for plain decimals only: exponents and `Infinity` are left out. Prices are exact reals, not IEEE doubles.
- ItemListing.SortByPrice: when a price does not parse, the source comparator returns NaN and the order is engine-defined. The model puts such prices first, so its sortedness is stronger than what the source promises for them.
- ItemListing.GetAllItems: `page` and `limit` are taken as already parsed integers. `parseInt` of non-numeric text, and Mongo's handling of a NaN skip or limit, are not modelled. A negative skip is modelled as the store's error; its exact message is not.
- ManageItems.CategoryNamed: an absent category name is taken to match no category. Mongoose's handling of an `undefined` filter value is not modelled.
- ManageItems.CreateItem: a schema refusal is an error answered 500; Mongoose's validation message is not modelled. The controllers import `item-server/src/models/items-model.js`, which is not part of this model. Its schema is assumed: name, price, description and owner are required strings, and `category` is stored.
- ItemStore.Database.Create: the generated ObjectId is a fresh-id parameter that the caller guarantees unused.
- Mongo errors on malformed ids (a `CastError` for a non-ObjectId `_id`) are not modelled, nor is `ObjectId.isValid`.
- Authentication is not modelled: the authenticated user arrives as a user-id parameter.
- The account controllers, the proxy-only controllers, the item-server category controllers, routers and server setup are not part of this model.
- The gateway relays that only forward a reply are not modelled: `createNewItem`, `fetchItemById`, `updateEntireItem`, `fetchCategoryWithItems`, `deleteCategory` and the older controller's `fetchAllItems`.
- GatewayCategories.GroupByCategory: JavaScript object keys are strings and inherit from `Object.prototype`. A category id such as `constructor` would find an inherited value; this is not modelled.
- QueryString.Parse splits at `&` and `=` only. Express's percent-decoding, and its turning of `+` into a space, are not modelled, so GatewayItems.ListingUrlRoundTrip is stated only for text without `%` and `+`.
- GatewayItems.ListingUrlRoundTrip: the gateway appends `minPrice`, `maxPrice`, `page` and `limit` unencoded. A value holding `&` adds parameters (GatewayItems.MinPriceInjectsParameter); the round trip excludes such values.
- `itemPrice` and `newPrice` are modelled as strings. A JSON body may carry a number instead, and a numeric 0 is falsy in the source, while the text "0" is truthy in the model.
- Price.IsSpace knows space, tab, line feed and carriage return. JavaScript's other white space (vertical tab, form feed, no-break space, the line and paragraph separators, the byte-order mark) is not modelled.
