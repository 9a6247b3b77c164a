/** The older `GatewayItemsController`. Its loader, user listing and users-with-items merge
    are those of `GatewayItems`; it differs in two handlers: the partial update notifies no
    webhook, and deletion forwards the request without checking for a user. */
module GatewayItemsLegacy {
  import opened Http
  import GatewayItems

  /** `updateItemPartially`: 401 without a user; a non-OK reply is relayed with its text; an OK
      reply is relayed with 200. No price-change notification is sent. */
  function UpdateItemPartially<B>(userId: Option<string>, itemId: string, upstream: Reply<B>)
    : (r: (Outcome<GatewayItems.Relayed<B>>, seq<Call>))
    ensures !Truthy(userId) ==>
      r == (Respond(401, GatewayItems.ErrorText("User not authenticated or userID not found")), [])
    ensures Truthy(userId) ==> r.1 == [PatchItem(itemId)] && r.0.Respond?
    ensures Truthy(userId) && !IsOk(upstream.status) ==>
      r.0 == Respond(upstream.status, GatewayItems.ErrorText(upstream.text))
    ensures Truthy(userId) && IsOk(upstream.status) ==> r.0 == Respond(200, GatewayItems.Data(upstream.body))
  {
    if !Truthy(userId) then (Respond(401, GatewayItems.ErrorText("User not authenticated or userID not found")), [])
    else if !IsOk(upstream.status) then (Respond(upstream.status, GatewayItems.ErrorText(upstream.text)), [PatchItem(itemId)])
    else (Respond(200, GatewayItems.Data(upstream.body)), [PatchItem(itemId)])
  }

  /** `removeItem` without the user check: the DELETE is always forwarded; 204 is answered with
      an empty 204 and any other status is relayed with its JSON body. */
  function RemoveItem<B>(itemId: string, upstream: Reply<B>): (r: (Outcome<GatewayItems.Relayed<B>>, seq<Call>))
    ensures r.1 == [DeleteItem(itemId)]
    ensures r.0.Respond? && r.0.status == upstream.status
    ensures r.0.body == GatewayItems.NoContent <==> upstream.status == 204
    ensures upstream.status != 204 ==> r.0.body == GatewayItems.Data(upstream.body)
  {
    if upstream.status == 204 then (Respond(204, GatewayItems.NoContent), [DeleteItem(itemId)])
    else (Respond(upstream.status, GatewayItems.Data(upstream.body)), [DeleteItem(itemId)])
  }

  /** With a user present, the legacy deletion answers exactly as the current one does; the
      current one only adds the 401 for a missing user. */
  lemma RemoveMatchesCurrentWhenAuthenticated<B>(userId: Option<string>, itemId: string, upstream: Reply<B>)
    requires Truthy(userId)
    ensures RemoveItem(itemId, upstream) == GatewayItems.RemoveItem(userId, itemId, upstream)
  {
  }
}
