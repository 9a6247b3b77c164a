/** The gateway's item controller (`ManageItemsController`): identifier check, listing with
    seller enrichment, the partial update that triggers price-change webhooks, deletion, and the
    merge of the user directory with the item server's per-user item lists. Upstream replies are
    inputs; every handler also returns the upstream calls it made. */
module GatewayItems {
  import opened Http
  import opened QueryString
  import opened Webhooks

  // ---------------------------------------------------------------- identifiers

  predicate IsHexDigit(c: char)
  {
    '0' <= c <= '9' || 'a' <= c <= 'f' || 'A' <= c <= 'F'
  }

  function AllHexDigits(s: string): (r: bool)
    ensures r <==> forall i :: 0 <= i < |s| ==> IsHexDigit(s[i])
  {
    if s == [] then true else IsHexDigit(s[0]) && AllHexDigits(s[1..])
  }

  /** `/^[0-9a-fA-F]{24}$/.test(id)`: exactly 24 hexadecimal digits, either case. */
  function IsItemIdentifier(id: string): (r: bool)
    ensures r <==> |id| == 24 && forall i :: 0 <= i < |id| ==> IsHexDigit(id[i])
  {
    |id| == 24 && AllHexDigits(id)
  }

  /** The request object, of which the loader sets only `req.doc`. */
  class Request {
    var doc: Option<StoreItem>

    constructor ()
      ensures doc == None
    {
      doc := None;
    }
  }

  /** The loader's decision, apart from the assignment to `req.doc`. */
  function LoaderOutcome(id: string, upstream: Reply<StoreItem>): Outcome<StoreItem>
  {
    if !IsItemIdentifier(id) then Next(HttpError(Some(404), "Invalid Identifier"))
    else if upstream.status == 404 then Next(HttpError(Some(404), "The item document you requested does not exist."))
    else if !IsOk(upstream.status) then Next(HttpError(None, "Server responded with status: " + Decimal(upstream.status)))
    else Proceed
  }

  /** The `:id` parameter loader. A malformed id is refused with 404 before any upstream call;
      an upstream 404 becomes a 404 error, any other failure a generic error, and an OK reply
      is stored in `req.doc` before `next()` is called. */
  method LoadItemsDocument(req: Request, id: string, upstream: Reply<StoreItem>)
    returns (outcome: Outcome<StoreItem>, calls: seq<Call>)
    modifies req
    ensures !IsItemIdentifier(id) ==>
      && outcome == Next(HttpError(Some(404), "Invalid Identifier"))
      && calls == [] && req.doc == old(req.doc)
    ensures IsItemIdentifier(id) ==> calls == [GetItem(id)]
    ensures IsItemIdentifier(id) && upstream.status == 404 ==>
      && outcome == Next(HttpError(Some(404), "The item document you requested does not exist."))
      && req.doc == old(req.doc)
    ensures IsItemIdentifier(id) && !IsOk(upstream.status) && upstream.status != 404 ==>
      && outcome == Next(HttpError(None, "Server responded with status: " + Decimal(upstream.status)))
      && req.doc == old(req.doc)
    ensures IsItemIdentifier(id) && IsOk(upstream.status) ==>
      outcome == Proceed && req.doc == Some(upstream.body)
    ensures outcome == LoaderOutcome(id, upstream)
  {
    if !IsItemIdentifier(id) {
      return Next(HttpError(Some(404), "Invalid Identifier")), [];
    }
    calls := [GetItem(id)];
    if !IsOk(upstream.status) {
      if upstream.status == 404 {
        return Next(HttpError(Some(404), "The item document you requested does not exist.")), calls;
      }
      return Next(HttpError(None, "Server responded with status: " + Decimal(upstream.status))), calls;
    }
    req.doc := Some(upstream.body);
    outcome := Proceed;
  }

  /** The status the client sees from the loader: 404 for a malformed id or a missing item,
      500 for any other upstream failure; an OK item lets the request go on. */
  lemma LoaderClientStatus(id: string, upstream: Reply<StoreItem>, outcome: Outcome<StoreItem>)
    requires outcome == LoaderOutcome(id, upstream)
    ensures !IsItemIdentifier(id) || upstream.status == 404 ==> !outcome.Proceed? && ClientStatus(outcome) == 404
    ensures IsItemIdentifier(id) && !IsOk(upstream.status) && upstream.status != 404 ==>
      !outcome.Proceed? && ClientStatus(outcome) == 500
    ensures IsItemIdentifier(id) && IsOk(upstream.status) <==> outcome.Proceed?
  {
  }

  // ---------------------------------------------------------------- listing

  /** The listing's query string parameters as received (`req.query`). */
  datatype ListQuery = ListQuery(
    category: Option<string>, minPrice: Option<string>, maxPrice: Option<string>,
    page: Option<string>, limit: Option<string>)

  function PageOrDefault(q: ListQuery): string
  {
    if q.page.Some? then q.page.value else "1"
  }

  function LimitOrDefault(q: ListQuery): string
  {
    if q.limit.Some? then q.limit.value else "10"
  }

  /** The query of the item server URL as the gateway writes it: `page` and `limit` (defaults
      1 and 10 when absent), then `&category=` (encoded), `&minPrice=` and `&maxPrice=`, each
      appended only when the request's value is truthy. */
  function ListingQuery(q: ListQuery, encode: string -> string): string
  {
    var start := "page=" + PageOrDefault(q) + "&limit=" + LimitOrDefault(q);
    var withCategory := if Truthy(q.category) then start + "&category=" + encode(q.category.value) else start;
    var withMin := if Truthy(q.minPrice) then withCategory + "&minPrice=" + q.minPrice.value else withCategory;
    if Truthy(q.maxPrice) then withMin + "&maxPrice=" + q.maxPrice.value else withMin
  }

  /** The item server URL the listing fetches. */
  function ListingUrl(itemsBase: string, q: ListQuery, encode: string -> string): (r: string)
    ensures r == itemsBase + "/items?" + Render(ListingParams(q, encode))
  {
    ListingQueryRendersParams(q, encode);
    itemsBase + "/items?" + ListingQuery(q, encode)
  }

  /** The parameters the gateway means to pass, in the order it appends them. */
  function ListingParams(q: ListQuery, encode: string -> string): seq<Param>
  {
    [Param("page", PageOrDefault(q)), Param("limit", LimitOrDefault(q))]
    + (if Truthy(q.category) then [Param("category", encode(q.category.value))] else [])
    + (if Truthy(q.minPrice) then [Param("minPrice", q.minPrice.value)] else [])
    + (if Truthy(q.maxPrice) then [Param("maxPrice", q.maxPrice.value)] else [])
  }

  lemma RenderSnoc(ps: seq<Param>, p: Param)
    requires ps != []
    ensures Render(ps + [p]) == Render(ps) + "&" + Field(p)
  {
    assert (ps + [p])[..|ps|] == ps;
  }

  /** Appending `&key=` and a value to a rendered query renders one more parameter. */
  lemma AppendParam(ps: seq<Param>, s: string, sep: string, key: string, value: string)
    requires ps != [] && s == Render(ps)
    requires sep == "&" + key + "="
    ensures s + sep + value == Render(ps + [Param(key, value)])
  {
    RenderSnoc(ps, Param(key, value));
  }

  /** The gateway's string building renders exactly the intended parameters. */
  lemma ListingQueryRendersParams(q: ListQuery, encode: string -> string)
    ensures ListingQuery(q, encode) == Render(ListingParams(q, encode))
  {
    var page, limit := Param("page", PageOrDefault(q)), Param("limit", LimitOrDefault(q));
    var ps := [page];
    var s := "page=" + PageOrDefault(q);
    assert s == Render(ps);
    AppendParam(ps, s, "&limit=", "limit", limit.value);
    ps, s := ps + [limit], s + "&limit=" + limit.value;
    if Truthy(q.category) {
      AppendParam(ps, s, "&category=", "category", encode(q.category.value));
      ps, s := ps + [Param("category", encode(q.category.value))], s + "&category=" + encode(q.category.value);
    }
    if Truthy(q.minPrice) {
      AppendParam(ps, s, "&minPrice=", "minPrice", q.minPrice.value);
      ps, s := ps + [Param("minPrice", q.minPrice.value)], s + "&minPrice=" + q.minPrice.value;
    }
    if Truthy(q.maxPrice) {
      AppendParam(ps, s, "&maxPrice=", "maxPrice", q.maxPrice.value);
      ps, s := ps + [Param("maxPrice", q.maxPrice.value)], s + "&maxPrice=" + q.maxPrice.value;
    }
    assert s == ListingQuery(q, encode);
    assert ps == ListingParams(q, encode);
  }

  function Keys(ps: seq<Param>): (r: seq<string>)
    ensures |r| == |ps|
    ensures forall i :: 0 <= i < |ps| ==> r[i] == ps[i].key
  {
    if ps == [] then [] else Keys(ps[..|ps| - 1]) + [ps[|ps| - 1].key]
  }

  /** When no key or value holds `&`, `=`, `%` or `+`, `Parse` gives back exactly the
      parameters the gateway meant: `page`, `limit`, then the truthy filters in the order
      category, minPrice, maxPrice, with the category as `encode` wrote it. */
  lemma ListingUrlRoundTrip(itemsBase: string, q: ListQuery, encode: string -> string)
    requires forall p :: p in ListingParams(q, encode) ==> Plain(p)
    ensures Parse(ListingQuery(q, encode)) == ListingParams(q, encode)
  {
    ListingQueryRendersParams(q, encode);
    RenderParseRoundTrip(ListingParams(q, encode));
  }

  /** `minPrice` is appended without encoding: a value `a&k=w` reaches the item server as
      `minPrice=a` followed by a parameter `k` of its own. */
  lemma MinPriceInjectsParameter(q: ListQuery, encode: string -> string, a: string, k: string, w: string)
    requires q.minPrice == Some(a + "&" + k + "=" + w) && !Truthy(q.category) && !Truthy(q.maxPrice)
    requires Plain(Param("page", PageOrDefault(q))) && Plain(Param("limit", LimitOrDefault(q)))
    requires Plain(Param("minPrice", a)) && Plain(Param(k, w))
    ensures Parse(ListingQuery(q, encode))
      == [Param("page", PageOrDefault(q)), Param("limit", LimitOrDefault(q)), Param("minPrice", a), Param(k, w)]
  {
    var head := [Param("page", PageOrDefault(q)), Param("limit", LimitOrDefault(q))];
    var first, second := Param("minPrice", a), Param(k, w);
    var sent := Param("minPrice", a + "&" + k + "=" + w);
    var ps := head + [first, second];
    ListingQueryRendersParams(q, encode);
    assert ListingParams(q, encode) == head + [sent];
    RenderSnoc(head, sent);
    RenderSnoc(head, first);
    RenderSnoc(head + [first], second);
    assert head + [first] + [second] == ps;
    assert Field(sent) == Field(first) + "&" + Field(second);
    JoinAssoc(Render(head), Field(first), Field(second));
    assert ListingQuery(q, encode) == Render(ps);
    assert forall p :: p in ps ==> p == head[0] || p == head[1] || p == first || p == second;
    RenderParseRoundTrip(ps);
  }

  lemma JoinAssoc(r: string, f: string, g: string)
    ensures r + "&" + (f + "&" + g) == r + "&" + f + "&" + g
  {
  }

  /** `page` and `limit` are always sent, then the truthy filters in a fixed order. */
  lemma ListingKeys(q: ListQuery, encode: string -> string)
    ensures Keys(ListingParams(q, encode))
      == ["page", "limit"]
         + (if Truthy(q.category) then ["category"] else [])
         + (if Truthy(q.minPrice) then ["minPrice"] else [])
         + (if Truthy(q.maxPrice) then ["maxPrice"] else [])
  {
  }

  datatype Seller = Seller(username: string, email: string)

  /** An item as the gateway lists it: its texts, creation time, seller and self link. */
  datatype EnrichedItem = EnrichedItem(
    name: string, price: string, description: string, createdAt: string,
    seller: Option<Seller>, selfHref: string)

  /** The item server's listing page: every field may be missing from the JSON. */
  datatype ItemPage = ItemPage(
    items: Option<seq<StoreItem>>, currentPage: Option<int>, totalPages: Option<int>,
    totalItems: Option<int>, message: Option<string>)

  datatype ListingBody = ListingBody(
    items: seq<EnrichedItem>, message: string,
    currentPage: Option<int>, totalPages: Option<int>, totalItems: Option<int>)

  /** Whether no user after position `i` has the same id: `users[i]` is the one a `Map` keeps. */
  predicate LastWithId(users: seq<User>, i: int)
    requires 0 <= i < |users|
  {
    forall j :: i < j < |users| ==> users[j].id != users[i].id
  }

  predicate HasUserWithId(users: seq<User>, id: string)
  {
    exists i :: 0 <= i < |users| && users[i].id == id
  }

  /** `new Map(users.map(u => [u.id, u]))`. */
  function UserIndex(users: seq<User>): (r: map<string, User>)
    ensures forall id :: id in r ==> r[id].id == id && r[id] in users
  {
    if users == [] then map[] else UserIndex(users[..|users| - 1])[users[|users| - 1].id := users[|users| - 1]]
  }

  /** The index's keys are exactly the users' ids. */
  lemma {:induction false} UserIndexKeys(users: seq<User>, id: string)
    ensures id in UserIndex(users) <==> HasUserWithId(users, id)
  {
    if users != [] {
      var init, last := users[..|users| - 1], users[|users| - 1];
      UserIndexKeys(init, id);
      if HasUserWithId(users, id) && id != last.id {
        var i :| 0 <= i < |users| && users[i].id == id;
        assert init[i].id == id;
      }
      if HasUserWithId(init, id) {
        var i :| 0 <= i < |init| && init[i].id == id;
        assert users[i].id == id;
      }
    }
  }

  /** A later user with the same id replaces an earlier one: the index keeps the last. */
  lemma {:induction false} UserIndexLastWins(users: seq<User>, i: nat)
    requires i < |users| && LastWithId(users, i)
    ensures users[i].id in UserIndex(users) && UserIndex(users)[users[i].id] == users[i]
  {
    var init, last := users[..|users| - 1], users[|users| - 1];
    if i < |init| {
      assert users[|users| - 1].id != users[i].id;
      assert LastWithId(init, i);
      UserIndexLastWins(init, i);
    }
  }

  function Enrich(items: seq<StoreItem>, index: map<string, User>, origin: string): (r: seq<EnrichedItem>)
    ensures |r| == |items|
    ensures forall i :: 0 <= i < |items| ==> r[i] == EnrichItem(items[i], index, origin)
  {
    if items == [] then []
    else Enrich(items[..|items| - 1], index, origin) + [EnrichItem(items[|items| - 1], index, origin)]
  }

  function EnrichItem(item: StoreItem, index: map<string, User>, origin: string): EnrichedItem
  {
    EnrichedItem(item.itemName, item.itemPrice, item.description, item.createdAt,
                 if item.owner in index then Some(Seller(index[item.owner].username, index[item.owner].email)) else None,
                 origin + "/api/v1/items/" + item.id)
  }

  /** Seller enrichment keeps the items' number and order; each item's seller is the username
      and email of the last directory user whose id is the item's owner, or null when no
      user has that id. */
  function WithSellers(items: seq<StoreItem>, users: seq<User>, origin: string): (r: seq<EnrichedItem>)
    ensures |r| == |items|
    ensures forall i :: 0 <= i < |items| ==>
      && r[i].name == items[i].itemName && r[i].price == items[i].itemPrice
      && r[i].description == items[i].description && r[i].createdAt == items[i].createdAt
      && r[i].selfHref == origin + "/api/v1/items/" + items[i].id
    ensures forall i :: 0 <= i < |items| ==>
      (r[i].seller.None? <==> !HasUserWithId(users, items[i].owner))
    ensures forall i, k :: 0 <= i < |items| && 0 <= k < |users| && users[k].id == items[i].owner ==>
      LastWithId(users, k) ==> r[i].seller == Some(Seller(users[k].username, users[k].email))
  {
    var index := UserIndex(users);
    forall i | 0 <= i < |items| ensures items[i].owner in index <==> HasUserWithId(users, items[i].owner) {
      UserIndexKeys(users, items[i].owner);
    }
    forall k | 0 <= k < |users| && LastWithId(users, k) ensures users[k].id in index && index[users[k].id] == users[k] {
      UserIndexLastWins(users, k);
    }
    Enrich(items, index, origin)
  }

  /** `fetchAllItems`. The item page is fetched; a null page is a TypeError; a page without
      items answers 200 with no items and the upstream pagination fields, and the user
      directory is not fetched; otherwise the directory is fetched and every item gets its
      seller, and the message falls back to 'Items fetching successful!'. */
  method FetchAllItems(
    q: ListQuery, itemsBase: string, origin: string, encode: string -> string,
    data: Option<ItemPage>, usersData: Option<seq<User>>)
    returns (outcome: Outcome<ListingBody>, calls: seq<Call>)
    ensures |calls| >= 1 && calls[0] == ListItems(ListingUrl(itemsBase, q, encode))
    ensures data.None? ==> outcome == Next(HttpError(None, TypeErrorMessage)) && |calls| == 1
    ensures data.Some? && (data.value.items.None? || data.value.items.value == []) ==>
      && outcome == Respond(200, ListingBody([], "No items found matching the criteria",
                           data.value.currentPage, data.value.totalPages, data.value.totalItems))
      && |calls| == 1
    ensures data.Some? && data.value.items.Some? && data.value.items.value != [] ==>
      calls[1..] == [ListUsers]
    ensures data.Some? && data.value.items.Some? && data.value.items.value != [] && usersData.None? ==>
      outcome == Next(HttpError(None, TypeErrorMessage))
    ensures data.Some? && data.value.items.Some? && data.value.items.value != [] && usersData.Some? ==>
      outcome == Respond(200, ListingBody(
        WithSellers(data.value.items.value, usersData.value, origin),
        if Truthy(data.value.message) then data.value.message.value else "Items fetching successful!",
        data.value.currentPage, data.value.totalPages, data.value.totalItems))
  {
    var url := ListingUrl(itemsBase, q, encode);
    calls := [ListItems(url)];
    if data.None? {
      return Next(HttpError(None, TypeErrorMessage)), calls;
    }
    var page := data.value;
    if page.items.None? || page.items.value == [] {
      return Respond(200, ListingBody([], "No items found matching the criteria",
                                      page.currentPage, page.totalPages, page.totalItems)), calls;
    }
    calls := calls + [ListUsers];
    if usersData.None? {
      return Next(HttpError(None, TypeErrorMessage)), calls;
    }
    var usersMap := UserIndex(usersData.value);
    var itemsWithDetails := Enrich(page.items.value, usersMap, origin);
    var message := if Truthy(page.message) then page.message.value else "Items fetching successful!";
    outcome := Respond(200, ListingBody(itemsWithDetails, message, page.currentPage, page.totalPages, page.totalItems));
  }

  // ---------------------------------------------------------------- single-item relays

  /** What the gateway sends back when it relays an item server reply. */
  datatype Relayed<B> = Data(data: B) | ErrorText(message: string) | NoContent

  /** `fetchUserItems`: 401 and no upstream call without an authenticated user id; an upstream
      failure is an error naming the status; an OK reply is relayed with 200. */
  function FetchUserItems<B>(userId: Option<string>, upstream: Reply<B>): (r: (Outcome<Relayed<B>>, seq<Call>))
    ensures !Truthy(userId) ==> r.1 == [] && r.0.Respond? && r.0.status == 401
    ensures Truthy(userId) ==> r.1 == [GetUserItems(userId.value)]
    ensures Truthy(userId) && !IsOk(upstream.status) ==>
      r.0 == Next(HttpError(None, "Items server responded with status " + Decimal(upstream.status) + ": " + upstream.text))
    ensures Truthy(userId) && IsOk(upstream.status) ==> r.0 == Respond(200, Data(upstream.body))
  {
    if !Truthy(userId) then (Respond(401, ErrorText("User not authenticated or userID not found")), [])
    else if !IsOk(upstream.status) then
      (Next(HttpError(None, "Items server responded with status " + Decimal(upstream.status) + ": " + upstream.text)),
       [GetUserItems(userId.value)])
    else (Respond(200, Data(upstream.body)), [GetUserItems(userId.value)])
  }

  /** `updateItemPartially`: 401 without a user; the PATCH is forwarded; a non-OK reply is
      relayed with its text and no webhook is notified; after an OK reply the price-change
      webhooks are notified, only when the body carries a truthy `itemPrice`. */
  method UpdateItemPartially<B>(
    manager: WebhookManager, userId: Option<string>, itemId: string, itemPrice: Option<string>,
    upstream: Reply<B>, post: (string, Payload) -> DeliveryResult)
    returns (outcome: Outcome<Relayed<B>>, calls: seq<Call>, attempts: seq<Attempt>)
    requires manager.Valid()
    ensures !Truthy(userId) ==>
      && outcome == Respond(401, ErrorText("User not authenticated or userID not found"))
      && calls == [] && attempts == []
    ensures Truthy(userId) ==> calls == [PatchItem(itemId)]
    ensures Truthy(userId) && !IsOk(upstream.status) ==>
      outcome == Respond(upstream.status, ErrorText(upstream.text)) && attempts == []
    ensures Truthy(userId) && IsOk(upstream.status) ==> outcome == Respond(200, Data(upstream.body))
    ensures Truthy(userId) && IsOk(upstream.status) && !Truthy(itemPrice) ==> attempts == []
    ensures Truthy(userId) && IsOk(upstream.status) && Truthy(itemPrice) ==>
      && |attempts| == |manager.order|
      && forall i :: 0 <= i < |attempts| ==>
           && attempts[i].url == manager.webhooks[manager.order[i]]
           && attempts[i].body == PriceChangePayload(manager.favorites, itemId, itemPrice.value)
  {
    attempts := [];
    if !Truthy(userId) {
      return Respond(401, ErrorText("User not authenticated or userID not found")), [], attempts;
    }
    calls := [PatchItem(itemId)];
    if !IsOk(upstream.status) {
      return Respond(upstream.status, ErrorText(upstream.text)), calls, attempts;
    }
    if Truthy(itemPrice) {
      attempts := manager.NotifyPriceChange(itemId, itemPrice.value, post);
    }
    outcome := Respond(200, Data(upstream.body));
  }

  /** `removeItem`: 401 without a user; an upstream 204 is answered with an empty 204, any
      other status is relayed with its JSON body. */
  function RemoveItem<B>(userId: Option<string>, itemId: string, upstream: Reply<B>): (r: (Outcome<Relayed<B>>, seq<Call>))
    ensures !Truthy(userId) ==> r.1 == [] && r.0.Respond? && r.0.status == 401
    ensures Truthy(userId) ==> r.1 == [DeleteItem(itemId)] && r.0.Respond? && r.0.status == upstream.status
    ensures Truthy(userId) ==> (r.0.body == NoContent <==> upstream.status == 204)
    ensures Truthy(userId) && upstream.status != 204 ==> r.0.body == Data(upstream.body)
  {
    if !Truthy(userId) then (Respond(401, ErrorText("User not authenticated or userID not found")), [])
    else if upstream.status == 204 then (Respond(204, NoContent), [DeleteItem(itemId)])
    else (Respond(upstream.status, Data(upstream.body)), [DeleteItem(itemId)])
  }

  // ---------------------------------------------------------------- users with items

  /** One entry of the item server's `users` list: a user id and, perhaps, that user's items. */
  datatype UserItems = UserItems(id: string, items: Option<seq<StoreItem>>)

  datatype UserWithItems = UserWithItems(user: User, items: seq<StoreItem>)

  datatype UsersBody = UsersBody(users: seq<UserWithItems>, message: string)

  /** Whether `entries[k]` is the first entry with this id, the one `find` returns. */
  predicate FirstWithId(entries: seq<UserItems>, k: int, id: string)
  {
    0 <= k < |entries| && entries[k].id == id && forall j :: 0 <= j < k ==> entries[j].id != id
  }

  /** `Array.prototype.find` by id: the position of the first entry with that id. */
  function FindById(entries: seq<UserItems>, id: string): (r: Option<nat>)
    ensures r.None? <==> forall k :: 0 <= k < |entries| ==> entries[k].id != id
    ensures r.Some? ==> FirstWithId(entries, r.value, id)
  {
    if entries == [] then None
    else if entries[0].id == id then Some(0)
    else
      match FindById(entries[1..], id)
      case None => None
      case Some(k) => Some(k + 1)
  }

  /** `find(u => u.id === user.id)?.items || []`. */
  function ItemsOf(entries: seq<UserItems>, id: string): seq<StoreItem>
  {
    match FindById(entries, id)
    case None => []
    case Some(k) => if entries[k].items.Some? then entries[k].items.value else []
  }

  /** One entry per directory user, in directory order, each with the items of the first
      item-server entry that has the same id, or none. */
  function MergeUsersWithItems(users: seq<User>, entries: seq<UserItems>): (r: seq<UserWithItems>)
    ensures |r| == |users|
    ensures forall i :: 0 <= i < |users| ==> r[i].user == users[i]
    ensures forall i :: 0 <= i < |users| ==>
      (forall k :: 0 <= k < |entries| ==> entries[k].id != users[i].id) ==> r[i].items == []
    ensures forall i, k :: 0 <= i < |users| && FirstWithId(entries, k, users[i].id) ==>
      r[i].items == (if entries[k].items.Some? then entries[k].items.value else [])
  {
    if users == [] then []
    else
      var last := users[|users| - 1];
      MergeUsersWithItems(users[..|users| - 1], entries) + [UserWithItems(last, ItemsOf(entries, last.id))]
  }

  /** `fetchAllUsersWithItems`: the directory, then the item server's users-with-items list;
      a non-OK reply from either aborts with an error naming the status. */
  function FetchAllUsersWithItems(
    usersReply: Reply<Option<seq<User>>>, itemsReply: Reply<Option<seq<UserItems>>>)
    : (r: (Outcome<UsersBody>, seq<Call>))
    ensures !IsOk(usersReply.status) ==>
      && r.1 == [ListUsers]
      && r.0 == Next(HttpError(None, "Auth server responded with status " + Decimal(usersReply.status) + ": " + usersReply.text))
    ensures IsOk(usersReply.status) ==> r.1 == [ListUsers, ListUsersWithItems]
    ensures IsOk(usersReply.status) && !IsOk(itemsReply.status) ==>
      r.0 == Next(HttpError(None, "Items server responded with status " + Decimal(itemsReply.status) + ": " + itemsReply.text))
    ensures IsOk(usersReply.status) && IsOk(itemsReply.status) && usersReply.body.Some? ==>
      (usersReply.body.value == [] || itemsReply.body.Some?) ==>
        r.0 == Respond(200, UsersBody(
          MergeUsersWithItems(usersReply.body.value, if itemsReply.body.Some? then itemsReply.body.value else []),
          "All users and their items retrieved successfully."))
  {
    if !IsOk(usersReply.status) then
      (Next(HttpError(None, "Auth server responded with status " + Decimal(usersReply.status) + ": " + usersReply.text)),
       [ListUsers])
    else
      var calls := [ListUsers, ListUsersWithItems];
      if !IsOk(itemsReply.status) then
        (Next(HttpError(None, "Items server responded with status " + Decimal(itemsReply.status) + ": " + itemsReply.text)),
         calls)
      // `usersData.users.map` needs the directory; each `itemsData.users.find` needs the list.
      else if usersReply.body.None? || (usersReply.body.value != [] && itemsReply.body.None?) then
        (Next(HttpError(None, TypeErrorMessage)), calls)
      else
        var entries := if itemsReply.body.Some? then itemsReply.body.value else [];
        (Respond(200, UsersBody(MergeUsersWithItems(usersReply.body.value, entries),
                                "All users and their items retrieved successfully.")), calls)
  }
}
