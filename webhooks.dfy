/** The gateway's in-memory webhook registry and favourites index, with the
    price-change fan-out that posts one payload to every registered webhook. */
module Webhooks {
  import opened Http

  /** One entry of the `notifications` array sent to webhooks. */
  datatype Notification = Notification(userId: string, message: string)

  /** The JSON body `{itemObjectId, newPrice, notifications}` of every delivery. */
  datatype Payload = Payload(itemObjectId: string, newPrice: string, notifications: seq<Notification>)

  /** What one POST to a webhook came to: an HTTP status, or an exception that was caught. */
  datatype DeliveryResult = Responded(status: int) | Threw

  /** One delivery attempt made by `NotifyPriceChange`. */
  datatype Attempt = Attempt(webhookId: string, url: string, body: Payload, result: DeliveryResult)

  predicate NoDuplicates<T(==)>(s: seq<T>)
  {
    forall i, j :: 0 <= i < j < |s| ==> s[i] != s[j]
  }

  /** `Set.prototype.add` on a set kept in insertion order. */
  function AddToSet(s: seq<string>, x: string): (r: seq<string>)
    ensures NoDuplicates(s) ==> NoDuplicates(r)
    ensures x in r && forall y :: y in r <==> y in s || y == x
    ensures x in s ==> r == s
  {
    if x in s then s else s + [x]
  }

  /** The users who favourited an item, in the order they did; nobody when it never was. */
  function Subscribers(favorites: map<string, seq<string>>, itemObjectId: string): seq<string>
  {
    if itemObjectId in favorites then favorites[itemObjectId] else []
  }

  /** The text each favouriting user is sent. */
  function PriceMessage(itemObjectId: string, newPrice: string): string
  {
    "Price of item with id : " + itemObjectId + " has changed to " + newPrice + " kr"
  }

  /** One notification per subscriber, in subscriber order. */
  function Notifications(users: seq<string>, itemObjectId: string, newPrice: string): (r: seq<Notification>)
    ensures |r| == |users|
    ensures forall i :: 0 <= i < |r| ==> r[i].userId == users[i]
    ensures forall n :: n in r ==> n.message == PriceMessage(itemObjectId, newPrice)
  {
    if users == [] then []
    else Notifications(users[..|users| - 1], itemObjectId, newPrice)
           + [Notification(users[|users| - 1], PriceMessage(itemObjectId, newPrice))]
  }

  /** The body every webhook receives for one price change. */
  function PriceChangePayload(favorites: map<string, seq<string>>, itemObjectId: string, newPrice: string): (r: Payload)
    ensures r.itemObjectId == itemObjectId && r.newPrice == newPrice
    ensures |r.notifications| == |Subscribers(favorites, itemObjectId)|
    ensures forall n :: n in r.notifications ==> n.message == PriceMessage(itemObjectId, newPrice)
  {
    Payload(itemObjectId, newPrice, Notifications(Subscribers(favorites, itemObjectId), itemObjectId, newPrice))
  }

  /** The payload names every favouriting user exactly once, and nobody else. */
  lemma {:induction false} PayloadNamesExactlyTheSubscribers(
    favorites: map<string, seq<string>>, itemObjectId: string, newPrice: string, u: string)
    requires itemObjectId in favorites ==> NoDuplicates(favorites[itemObjectId])
    ensures var ns := PriceChangePayload(favorites, itemObjectId, newPrice).notifications;
      && (Notification(u, PriceMessage(itemObjectId, newPrice)) in ns
          <==> itemObjectId in favorites && u in favorites[itemObjectId])
      && |set i | 0 <= i < |ns| && ns[i].userId == u| <= 1
  {
    var users := Subscribers(favorites, itemObjectId);
    var ns := Notifications(users, itemObjectId, newPrice);
    var m := Notification(u, PriceMessage(itemObjectId, newPrice));
    if m in ns {
      var i :| 0 <= i < |ns| && ns[i] == m;
      assert users[i] == u;
    }
    if itemObjectId in favorites && u in favorites[itemObjectId] {
      var i :| 0 <= i < |users| && users[i] == u;
      assert ns[i] == m;
    }
    var hits := set i | 0 <= i < |ns| && ns[i].userId == u;
    if hits != {} {
      var i :| i in hits;
      assert hits == {i} by {
        forall j | j in hits ensures j == i {
          assert users[j] == u == users[i];
        }
      }
    }
  }

  /** An item nobody favourited still produces a payload, with no notifications in it. */
  lemma UnfavouritedItemHasEmptyNotifications(
    favorites: map<string, seq<string>>, itemObjectId: string, newPrice: string)
    requires itemObjectId !in favorites
    ensures PriceChangePayload(favorites, itemObjectId, newPrice).notifications == []
  {
  }

  class WebhookManager {
    /** Webhook id to URL. */
    var webhooks: map<string, string>
    /** The iteration order of `webhooks`: ids in the order they were first set. */
    var order: seq<string>
    /** Item id to the users who favourited it, in insertion order, without repeats. */
    var favorites: map<string, seq<string>>

    ghost predicate Valid()
      reads this
    {
      && NoDuplicates(order)
      && (forall id :: id in order <==> id in webhooks)
      && (forall item :: item in favorites ==> NoDuplicates(favorites[item]))
    }

    /** The set view of the favourites of one item. */
    function FavoritedBy(itemObjectId: string): set<string>
      reads this
    {
      set u | u in Subscribers(favorites, itemObjectId)
    }

    constructor ()
      ensures Valid()
      ensures webhooks == map[] && order == [] && favorites == map[]
    {
      webhooks := map[];
      order := [];
      favorites := map[];
    }

    /** Registers `url` under the id read from the clock; an id already in use is overwritten
        and keeps its place in the iteration order. */
    method RegisterWebhook(url: string, now: nat) returns (id: string)
      requires Valid()
      modifies this
      ensures Valid()
      ensures id == Decimal(now)
      ensures webhooks == old(webhooks)[id := url]
      ensures order == if id in old(webhooks) then old(order) else old(order) + [id]
      ensures favorites == old(favorites)
    {
      id := Decimal(now);
      if id !in webhooks {
        order := order + [id];
      }
      webhooks := webhooks[id := url];
    }

    /** Adds `userId` to the favourites of `itemObjectId`, creating its set on first use. */
    method AddFavorite(userId: string, itemObjectId: string)
      requires Valid()
      modifies this
      ensures Valid()
      ensures favorites == old(favorites)[itemObjectId := AddToSet(Subscribers(old(favorites), itemObjectId), userId)]
      ensures webhooks == old(webhooks) && order == old(order)
    {
      if itemObjectId !in favorites {
        favorites := favorites[itemObjectId := []];
      }
      favorites := favorites[itemObjectId := AddToSet(favorites[itemObjectId], userId)];
    }

    /** Posts the same payload to every registered webhook, in registry order. `post` stands for
        the network: it gives the outcome of one POST. A failed delivery is caught and the loop
        goes on, so there is one attempt per webhook whatever the outcomes; neither map changes. */
    method NotifyPriceChange(itemObjectId: string, newPrice: string, post: (string, Payload) -> DeliveryResult)
      returns (attempts: seq<Attempt>)
      requires Valid()
      ensures |attempts| == |order|
      ensures forall i :: 0 <= i < |attempts| ==>
        && attempts[i].webhookId == order[i]
        && attempts[i].url == webhooks[order[i]]
        && attempts[i].body == PriceChangePayload(favorites, itemObjectId, newPrice)
        && attempts[i].result == post(webhooks[order[i]], attempts[i].body)
    {
      var userIds := Subscribers(favorites, itemObjectId);
      var notifications := Notifications(userIds, itemObjectId, newPrice);
      var body := Payload(itemObjectId, newPrice, notifications);
      attempts := [];
      for i := 0 to |order|
        invariant |attempts| == i
        invariant forall k :: 0 <= k < i ==>
          attempts[k] == Attempt(order[k], webhooks[order[k]], body, post(webhooks[order[k]], body))
      {
        var id := order[i];
        var url := webhooks[id];
        var result := post(url, body);
        attempts := attempts + [Attempt(id, url, body, result)];
      }
    }
  }

  /** Favouriting is idempotent: a second identical call leaves the index as it is. */
  lemma AddFavoriteIdempotent(favorites: map<string, seq<string>>, userId: string, itemObjectId: string)
    ensures var once := favorites[itemObjectId := AddToSet(Subscribers(favorites, itemObjectId), userId)];
      once[itemObjectId := AddToSet(Subscribers(once, itemObjectId), userId)] == once
  {
  }

  /** A worked example: one webhook, one favourite, one price change. */
  method PriceChangeScenario(post: (string, Payload) -> DeliveryResult)
  {
    var m := new WebhookManager();
    var w1 := m.RegisterWebhook("https://hook.example/cb", 7);
    m.AddFavorite("u1", "item42");
    var attempts := m.NotifyPriceChange("item42", "150", post);
    assert m.order == [w1];
    assert |attempts| == 1 && attempts[0].url == "https://hook.example/cb";
    assert Subscribers(m.favorites, "item42") == ["u1"];
    assert attempts[0].body.notifications == [Notification("u1", PriceMessage("item42", "150"))];
  }
}
