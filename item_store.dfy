/** The item server's two collections, items and categories, held in memory, with the
    Mongoose queries its controllers use: find by owner, find a category by name, and the
    ownership-guarded `findOneAndUpdate` and `findOneAndDelete`. */
module ItemStore {
  import opened Http

  /** A stored item: its `_id`, its texts, its owner's user id (the field is called `itemId`)
      and its category's id. */
  datatype ItemDoc = ItemDoc(
    id: string, itemName: string, itemPrice: string, description: string,
    owner: string, category: string)

  /** The changes an update applies; an absent (`undefined`) value leaves the field as it is. */
  datatype ItemUpdate = ItemUpdate(
    itemName: Option<string>, itemPrice: Option<string>, description: Option<string>,
    category: Option<string>)

  function Overwrite(current: string, given: Option<string>): string
  {
    if given.Some? then given.value else current
  }

  function Apply(doc: ItemDoc, u: ItemUpdate): ItemDoc
  {
    doc.(itemName := Overwrite(doc.itemName, u.itemName),
         itemPrice := Overwrite(doc.itemPrice, u.itemPrice),
         description := Overwrite(doc.description, u.description),
         category := Overwrite(doc.category, u.category))
  }

  /** The update of `partialUpdateOneItem`: `{ itemPrice }` and nothing else. */
  function PriceUpdate(price: string): ItemUpdate
  {
    ItemUpdate(None, Some(price), None, None)
  }

  /** An update never changes an item's id or owner; a price update changes the price only. */
  lemma PriceUpdateChangesOnlyPrice(doc: ItemDoc, price: string)
    ensures Apply(doc, PriceUpdate(price)) == doc.(itemPrice := price)
  {
  }

  predicate DistinctIds(items: seq<ItemDoc>)
  {
    forall i, j :: 0 <= i < j < |items| ==> items[i].id != items[j].id
  }

  /** Whether `items[k]` is the item with this `_id` owned by this user. */
  predicate Owns(items: seq<ItemDoc>, k: int, id: string, owner: string)
  {
    0 <= k < |items| && items[k].id == id && items[k].owner == owner
  }

  /** `findOne({ _id: id, itemId: owner })`: the first item with this id and owner. */
  function FindOwned(items: seq<ItemDoc>, id: string, owner: string): (r: Option<nat>)
    ensures r.None? <==> forall k :: 0 <= k < |items| ==> !Owns(items, k, id, owner)
    ensures r.Some? ==> Owns(items, r.value, id, owner)
    ensures r.Some? ==> forall k :: 0 <= k < r.value ==> !Owns(items, k, id, owner)
  {
    if items == [] then None
    else if items[0].id == id && items[0].owner == owner then
      assert Owns(items, 0, id, owner);
      Some(0)
    else
      assert forall k :: 1 <= k < |items| ==> (Owns(items[1..], k - 1, id, owner) <==> Owns(items, k, id, owner));
      match FindOwned(items[1..], id, owner)
      case None => None
      case Some(k) =>
        assert Owns(items, k + 1, id, owner);
        Some(k + 1)
  }

  /** The collection after `findOneAndUpdate({ _id: id, itemId: owner }, u)`. */
  function UpdateOwned(items: seq<ItemDoc>, id: string, owner: string, u: ItemUpdate): (r: seq<ItemDoc>)
    ensures |r| == |items|
    ensures forall k :: 0 <= k < |items| ==> r[k].id == items[k].id && r[k].owner == items[k].owner
  {
    match FindOwned(items, id, owner)
    case None => items
    case Some(k) => items[k := Apply(items[k], u)]
  }

  /** The collection after `findOneAndDelete({ _id: id, itemId: owner })`. */
  function DeleteOwned(items: seq<ItemDoc>, id: string, owner: string): (r: seq<ItemDoc>)
    ensures |items| - 1 <= |r| <= |items|
    ensures forall x :: x in r ==> x in items
  {
    match FindOwned(items, id, owner)
    case None => items
    case Some(k) => items[..k] + items[k + 1..]
  }

  /** An ownership-guarded update touches the caller's item only: every other item, and the
      order and number of items, stay as they were; without such an item nothing changes. */
  lemma UpdateTouchesOnlyOwned(items: seq<ItemDoc>, id: string, owner: string, u: ItemUpdate)
    ensures var r := UpdateOwned(items, id, owner, u);
      && |r| == |items|
      && (forall k :: 0 <= k < |items| && !Owns(items, k, id, owner) ==> r[k] == items[k])
      && (forall k :: 0 <= k < |items| ==> r[k] == items[k] || r[k] == Apply(items[k], u))
      && ((forall k :: 0 <= k < |items| ==> !Owns(items, k, id, owner)) ==> r == items)
  {
  }

  /** A partial price update changes the price of the caller's item and nothing else. */
  lemma PriceUpdateOnlyChangesCallersPrice(items: seq<ItemDoc>, id: string, owner: string, price: string)
    ensures var r := UpdateOwned(items, id, owner, PriceUpdate(price));
      && |r| == |items|
      && forall k :: 0 <= k < |items| ==>
           r[k] == items[k] || (Owns(items, k, id, owner) && r[k] == items[k].(itemPrice := price))
  {
    UpdateTouchesOnlyOwned(items, id, owner, PriceUpdate(price));
  }

  /** An ownership-guarded delete removes exactly the caller's item when ids are distinct:
      afterwards no item has that id and owner, every other item remains, in order. */
  lemma DeleteRemovesOnlyOwned(items: seq<ItemDoc>, id: string, owner: string)
    requires DistinctIds(items)
    ensures var r := DeleteOwned(items, id, owner);
      && DistinctIds(r)
      && (forall k :: 0 <= k < |r| ==> !Owns(r, k, id, owner))
      && (forall x :: x in items && !(x.id == id && x.owner == owner) ==> x in r)
      && (forall x :: x in r ==> x in items)
      && |r| == (if FindOwned(items, id, owner).Some? then |items| - 1 else |items|)
  {
    var r := DeleteOwned(items, id, owner);
    match FindOwned(items, id, owner)
    case None =>
    case Some(k) =>
      assert r == items[..k] + items[k + 1..];
      forall j | 0 <= j < |r| ensures r[j] == items[if j < k then j else j + 1] {
      }
      forall j | 0 <= j < |r| ensures !Owns(r, j, id, owner) {
        var i := if j < k then j else j + 1;
        assert items[i].id != items[k].id;
      }
      forall x | x in items && !(x.id == id && x.owner == owner) ensures x in r {
        var i :| 0 <= i < |items| && items[i] == x;
        assert r[if i < k then i else i - 1] == x;
      }
      forall i, j | 0 <= i < j < |r| ensures r[i].id != r[j].id {
        assert r[i] == items[if i < k then i else i + 1];
        assert r[j] == items[if j < k then j else j + 1];
      }
  }

  /** `findById(id)`: the position of the first item with this `_id`. */
  function IndexOfId(items: seq<ItemDoc>, id: string): (r: Option<nat>)
    ensures r.None? <==> forall k :: 0 <= k < |items| ==> items[k].id != id
    ensures r.Some? ==> r.value < |items| && items[r.value].id == id
    ensures r.Some? ==> forall k :: 0 <= k < r.value ==> items[k].id != id
  {
    if items == [] then None
    else if items[0].id == id then Some(0)
    else
      match IndexOfId(items[1..], id)
      case None => None
      case Some(k) => Some(k + 1)
  }

  /** The collection after `findByIdAndUpdate(id, u)`, which does not look at the owner. */
  function UpdateById(items: seq<ItemDoc>, id: string, u: ItemUpdate): (r: seq<ItemDoc>)
    ensures |r| == |items|
    ensures forall k :: 0 <= k < |items| ==> r[k].id == items[k].id && r[k].owner == items[k].owner
  {
    match IndexOfId(items, id)
    case None => items
    case Some(k) => items[k := Apply(items[k], u)]
  }

  /** Once the caller's ownership of `id` is established, and ids are distinct, updating by id
      alone updates the same item as the ownership-guarded update. */
  lemma UpdateByIdOfOwned(items: seq<ItemDoc>, id: string, owner: string, u: ItemUpdate)
    requires DistinctIds(items) && FindOwned(items, id, owner).Some?
    ensures IndexOfId(items, id) == FindOwned(items, id, owner)
    ensures UpdateById(items, id, u) == UpdateOwned(items, id, owner, u)
  {
  }

  /** `find({ itemId: owner })`: the owner's items, in collection order. */
  function OwnedBy(items: seq<ItemDoc>, owner: string): (r: seq<ItemDoc>)
    ensures |r| <= |items|
    ensures forall x :: x in r <==> x in items && x.owner == owner
  {
    if items == [] then []
    else
      var last := items[|items| - 1];
      OwnedBy(items[..|items| - 1], owner) + (if last.owner == owner then [last] else [])
  }

  /** `CategoryModel.findOne({ name })`: the first category with this name. */
  function FindCategoryByName(categories: seq<Category>, name: string): (r: Option<Category>)
    ensures r.None? <==> forall c :: c in categories ==> c.name != name
    ensures r.Some? ==> r.value in categories && r.value.name == name
  {
    if categories == [] then None
    else if categories[0].name == name then Some(categories[0])
    else FindCategoryByName(categories[1..], name)
  }

  /** The item collection and the category collection. */
  class Database {
    var items: seq<ItemDoc>
    var categories: seq<Category>

    /** `_id` is unique within the collection. */
    ghost predicate Valid()
      reads this
    {
      DistinctIds(items)
    }

    constructor (categories: seq<Category>)
      ensures Valid() && items == [] && this.categories == categories
    {
      items := [];
      this.categories := categories;
    }

    /** `ItemsModel.create(doc)`, with `_id` the freshly generated id. */
    method Create(doc: ItemDoc)
      requires Valid() && forall x :: x in items ==> x.id != doc.id
      modifies this
      ensures Valid()
      ensures items == old(items) + [doc] && categories == old(categories)
    {
      items := items + [doc];
    }

    /** `findOneAndUpdate({ _id, itemId }, u, { new: true })`: the updated item, or none when
        the caller owns no item with that id. */
    method FindOneAndUpdate(id: string, owner: string, u: ItemUpdate) returns (updated: Option<ItemDoc>)
      requires Valid()
      modifies this
      ensures Valid()
      ensures items == UpdateOwned(old(items), id, owner, u) && categories == old(categories)
      ensures updated.None? <==> FindOwned(old(items), id, owner).None?
      ensures updated.Some? ==> updated.value == Apply(old(items)[FindOwned(old(items), id, owner).value], u)
    {
      var k := FindOwned(items, id, owner);
      if k.None? {
        return None;
      }
      var doc := Apply(items[k.value], u);
      items := items[k.value := doc];
      updated := Some(doc);
    }

    /** `findByIdAndUpdate(id, u, { new: true })`: the updated item, or none when no item
        has that id. */
    method FindByIdAndUpdate(id: string, u: ItemUpdate) returns (updated: Option<ItemDoc>)
      requires Valid()
      modifies this
      ensures Valid()
      ensures items == UpdateById(old(items), id, u) && categories == old(categories)
      ensures updated.None? <==> IndexOfId(old(items), id).None?
      ensures updated.Some? ==> updated.value == Apply(old(items)[IndexOfId(old(items), id).value], u)
    {
      var k := IndexOfId(items, id);
      if k.None? {
        return None;
      }
      var doc := Apply(items[k.value], u);
      items := items[k.value := doc];
      updated := Some(doc);
    }

    /** `findOneAndDelete({ _id, itemId })`: the deleted item, or none. */
    method FindOneAndDelete(id: string, owner: string) returns (deleted: Option<ItemDoc>)
      requires Valid()
      modifies this
      ensures Valid()
      ensures items == DeleteOwned(old(items), id, owner) && categories == old(categories)
      ensures deleted.None? <==> FindOwned(old(items), id, owner).None?
      ensures deleted.Some? ==> deleted.value == old(items)[FindOwned(old(items), id, owner).value]
    {
      DeleteRemovesOnlyOwned(items, id, owner);
      var k := FindOwned(items, id, owner);
      if k.None? {
        return None;
      }
      deleted := Some(items[k.value]);
      items := items[..k.value] + items[k.value + 1..];
    }
  }
}
