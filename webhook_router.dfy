/** The two HTTP endpoints in front of the shared `WebhookManager`:
    `POST /register` and `POST /favorite`. */
module WebhookRouter {
  import opened Http
  import opened Webhooks

  /** The JSON bodies the two endpoints answer with. */
  datatype RouteBody =
    | ErrorBody(error: string)
    | RegisteredBody(id: string, message: string)
    | MessageBody(message: string)

  datatype RouteReply = RouteReply(status: int, body: RouteBody)

  /** `POST /register`: a missing or empty `url` is refused with 400 and the registry is left
      alone; otherwise the URL is registered under the clock's id and that id is answered. */
  method Register(manager: WebhookManager, url: Option<string>, now: nat) returns (reply: RouteReply)
    requires manager.Valid()
    modifies manager
    ensures manager.Valid()
    ensures !Truthy(url) ==>
      && reply == RouteReply(400, ErrorBody("Webhook URL is required"))
      && manager.webhooks == old(manager.webhooks)
      && manager.order == old(manager.order)
      && manager.favorites == old(manager.favorites)
    ensures Truthy(url) ==>
      && reply == RouteReply(201, RegisteredBody(Decimal(now), "Webhook registered successfully"))
      && manager.webhooks == old(manager.webhooks)[Decimal(now) := url.value]
      && manager.order == (if Decimal(now) in old(manager.webhooks) then old(manager.order) else old(manager.order) + [Decimal(now)])
      && manager.favorites == old(manager.favorites)
  {
    if !Truthy(url) {
      return RouteReply(400, ErrorBody("Webhook URL is required"));
    }
    var id := manager.RegisterWebhook(url.value, now);
    reply := RouteReply(201, RegisteredBody(id, "Webhook registered successfully"));
  }

  /** `POST /favorite`: both `userId` and `itemObjectId` must be present and non-empty;
      then the user joins the item's favourites and 200 is answered. */
  method Favorite(manager: WebhookManager, userId: Option<string>, itemObjectId: Option<string>)
    returns (reply: RouteReply)
    requires manager.Valid()
    modifies manager
    ensures manager.Valid()
    ensures manager.webhooks == old(manager.webhooks) && manager.order == old(manager.order)
    ensures !Truthy(userId) || !Truthy(itemObjectId) ==>
      && reply == RouteReply(400, ErrorBody("User ID and Item ID are required"))
      && manager.favorites == old(manager.favorites)
    ensures Truthy(userId) && Truthy(itemObjectId) ==>
      && reply == RouteReply(200, MessageBody("Item added to favorites"))
      && userId.value in manager.FavoritedBy(itemObjectId.value)
      && manager.FavoritedBy(itemObjectId.value) == old(manager.FavoritedBy(itemObjectId.value)) + {userId.value}
      && (forall item :: item != itemObjectId.value ==>
            (item in manager.favorites <==> item in old(manager.favorites))
            && (item in manager.favorites ==> manager.favorites[item] == old(manager.favorites)[item]))
  {
    if !Truthy(userId) || !Truthy(itemObjectId) {
      return RouteReply(400, ErrorBody("User ID and Item ID are required"));
    }
    manager.AddFavorite(userId.value, itemObjectId.value);
    reply := RouteReply(200, MessageBody("Item added to favorites"));
  }
}
