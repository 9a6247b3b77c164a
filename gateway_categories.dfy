/** The gateway's category controllers (`ManageCategoriesController` and the identical
    `GatewayCategoryController`): categories joined with the items that belong to them,
    category creation and lookup, all relayed from the item server. */
module GatewayCategories {
  import opened Http

  /** One item as a category lists it: its name and a link to it on the item server. */
  datatype CategoryEntry = CategoryEntry(itemName: string, link: string)

  datatype CategoryWithItems = CategoryWithItems(categoryName: string, items: seq<CategoryEntry>)

  datatype CategoriesBody = CategoriesBody(categories: seq<CategoryWithItems>, message: string)

  function Entry(item: StoreItem, itemsBase: string): CategoryEntry
  {
    CategoryEntry(item.itemName, itemsBase + "/items/" + item.id)
  }

  /** The entries of the items whose category is `key`, in item order: a filter. */
  function Bucket(items: seq<StoreItem>, key: string, itemsBase: string): seq<CategoryEntry>
  {
    if items == [] then []
    else
      var last := items[|items| - 1];
      Bucket(items[..|items| - 1], key, itemsBase) + (if last.category == key then [Entry(last, itemsBase)] else [])
  }

  predicate HasItemInCategory(items: seq<StoreItem>, key: string)
  {
    exists i :: 0 <= i < |items| && items[i].category == key
  }

  /** A bucket lists every item of its category and nothing else. */
  lemma {:induction false} BucketMembers(items: seq<StoreItem>, key: string, itemsBase: string, e: CategoryEntry)
    ensures e in Bucket(items, key, itemsBase)
        <==> exists i :: 0 <= i < |items| && items[i].category == key && e == Entry(items[i], itemsBase)
  {
    if items != [] {
      var init := items[..|items| - 1];
      BucketMembers(init, key, itemsBase, e);
      if exists i :: 0 <= i < |init| && init[i].category == key && e == Entry(init[i], itemsBase) {
        var i :| 0 <= i < |init| && init[i].category == key && e == Entry(init[i], itemsBase);
        assert items[i] == init[i];
      }
      if exists i :: 0 <= i < |items| && items[i].category == key && e == Entry(items[i], itemsBase) {
        var i :| 0 <= i < |items| && items[i].category == key && e == Entry(items[i], itemsBase);
        if i < |init| {
          assert init[i] == items[i];
        }
      }
    }
  }

  /** A category no item names has an empty bucket; one some item names has a non-empty one. */
  lemma {:induction false} BucketEmpty(items: seq<StoreItem>, key: string, itemsBase: string)
    ensures Bucket(items, key, itemsBase) == [] <==> !HasItemInCategory(items, key)
  {
    if items != [] {
      var init := items[..|items| - 1];
      BucketEmpty(init, key, itemsBase);
      if HasItemInCategory(init, key) {
        var i :| 0 <= i < |init| && init[i].category == key;
        assert items[i].category == key;
      }
      if HasItemInCategory(items, key) && items[|items| - 1].category != key {
        var i :| 0 <= i < |items| && items[i].category == key;
        assert init[i].category == key;
      }
    }
  }

  /** The `reduce` that groups the items by category id: an entry is pushed onto the list of
      its category, which is created on that category's first item. */
  method GroupByCategory(items: seq<StoreItem>, itemsBase: string) returns (buckets: map<string, seq<CategoryEntry>>)
    ensures forall key :: key in buckets <==> HasItemInCategory(items, key)
    ensures forall key :: key in buckets ==> buckets[key] == Bucket(items, key, itemsBase)
  {
    buckets := map[];
    for i := 0 to |items|
      invariant forall key :: key in buckets <==> HasItemInCategory(items[..i], key)
      invariant forall key :: key in buckets ==> buckets[key] == Bucket(items[..i], key, itemsBase)
    {
      var item := items[i];
      assert items[..i + 1][..i] == items[..i];
      assert items[..i + 1][i] == item;
      if item.category !in buckets {
        buckets := buckets[item.category := []];
      }
      buckets := buckets[item.category := buckets[item.category] + [Entry(item, itemsBase)]];
      forall key ensures key in buckets <==> HasItemInCategory(items[..i + 1], key) {
        if HasItemInCategory(items[..i], key) {
          var j :| 0 <= j < i && items[..i][j].category == key;
          assert items[..i + 1][j].category == key;
        }
        if HasItemInCategory(items[..i + 1], key) && key != item.category {
          var j :| 0 <= j < i + 1 && items[..i + 1][j].category == key;
          assert items[..i][j].category == key;
        }
      }
      forall key | key in buckets ensures buckets[key] == Bucket(items[..i + 1], key, itemsBase) {
        if key == item.category && !HasItemInCategory(items[..i], key) {
          BucketEmpty(items[..i], key, itemsBase);
        }
      }
    }
    assert items[..|items|] == items;
  }

  /** `itemsByCategory[category._id] || []` for every category, in category order. */
  function Combine(categories: seq<Category>, buckets: map<string, seq<CategoryEntry>>): (r: seq<CategoryWithItems>)
    ensures |r| == |categories|
    ensures forall j :: 0 <= j < |categories| ==>
      r[j] == CategoryWithItems(categories[j].name,
                                if categories[j].id in buckets then buckets[categories[j].id] else [])
  {
    if categories == [] then []
    else
      var c := categories[|categories| - 1];
      Combine(categories[..|categories| - 1], buckets)
        + [CategoryWithItems(c.name, if c.id in buckets then buckets[c.id] else [])]
  }

  /** `fetchAllCategories`. Without a `categories` list the answer is 200 with none and the
      items are not fetched; otherwise the items are fetched (a reply without `items` is a
      TypeError), and each category, in order, is answered with its name and exactly the
      entries of the items whose category is its id, in item order. */
  method FetchAllCategories(itemsBase: string, categoriesData: Option<seq<Category>>, itemsData: Option<seq<StoreItem>>)
    returns (outcome: Outcome<CategoriesBody>, calls: seq<Call>)
    ensures categoriesData.None? ==>
      && outcome == Respond(200, CategoriesBody([], "No categories found or invalid response from items server"))
      && calls == [ListCategories]
    ensures categoriesData.Some? ==> calls == [ListCategories, ListAllItems]
    ensures categoriesData.Some? && itemsData.None? ==> outcome == Next(HttpError(None, TypeErrorMessage))
    ensures categoriesData.Some? && itemsData.Some? ==>
      && outcome.Respond? && outcome.status == 200
      && outcome.body.message == "Categories with items fetched successfully"
      && |outcome.body.categories| == |categoriesData.value|
      && forall j :: 0 <= j < |categoriesData.value| ==>
           outcome.body.categories[j]
             == CategoryWithItems(categoriesData.value[j].name,
                                  Bucket(itemsData.value, categoriesData.value[j].id, itemsBase))
  {
    calls := [ListCategories];
    if categoriesData.None? {
      return Respond(200, CategoriesBody([], "No categories found or invalid response from items server")), calls;
    }
    calls := calls + [ListAllItems];
    if itemsData.None? {
      return Next(HttpError(None, TypeErrorMessage)), calls;
    }
    var itemsByCategory := GroupByCategory(itemsData.value, itemsBase);
    forall key | key !in itemsByCategory ensures Bucket(itemsData.value, key, itemsBase) == [] {
      BucketEmpty(itemsData.value, key, itemsBase);
    }
    var categoriesWithItems := Combine(categoriesData.value, itemsByCategory);
    outcome := Respond(200, CategoriesBody(categoriesWithItems, "Categories with items fetched successfully"));
  }

  /** What the gateway relays from the item server for one category. */
  datatype CategoryReply<B> = CategoryData(data: B) | CategoryMessage(message: string)

  /** `createNewCategory`: a failed creation is an error naming the upstream status and text
      (answered 500); a successful one is relayed with the item server's own status. */
  function CreateNewCategory<B>(upstream: Reply<B>): (r: Outcome<CategoryReply<B>>)
    ensures !r.Proceed?
    ensures IsOk(upstream.status) <==> r.Respond?
    ensures IsOk(upstream.status) ==> r == Respond(upstream.status, CategoryData(upstream.body))
    ensures !IsOk(upstream.status) ==>
      && r.error == HttpError(None, "Items server responded with status " + Decimal(upstream.status) + ": " + upstream.text)
      && ClientStatus(r) == 500
  {
    if !IsOk(upstream.status) then
      Next(HttpError(None, "Items server responded with status " + Decimal(upstream.status) + ": " + upstream.text))
    else Respond(upstream.status, CategoryData(upstream.body))
  }

  /** `getCategoryById`: 404 is answered 'Category not found', any other failure is an error
      answered 500, and a found category is relayed with 200. */
  function GetCategoryById<B>(id: string, upstream: Reply<B>): (r: (Outcome<CategoryReply<B>>, seq<Call>))
    ensures r.1 == [GetCategory(id)]
    ensures !r.0.Proceed?
    ensures upstream.status == 404 ==> r.0 == Respond(404, CategoryMessage("Category not found"))
    ensures !IsOk(upstream.status) && upstream.status != 404 ==>
      r.0 == Next(HttpError(None, "Server responded with status: " + Decimal(upstream.status))) && ClientStatus(r.0) == 500
    ensures IsOk(upstream.status) ==> r.0 == Respond(200, CategoryData(upstream.body))
  {
    if !IsOk(upstream.status) then
      if upstream.status == 404 then (Respond(404, CategoryMessage("Category not found")), [GetCategory(id)])
      else (Next(HttpError(None, "Server responded with status: " + Decimal(upstream.status))), [GetCategory(id)])
    else (Respond(200, CategoryData(upstream.body)), [GetCategory(id)])
  }
}
