/** `getAllItems` of the item server: an optional category filter, a page of the matching items
    (`skip`/`limit` in the store), an optional price range, an ascending sort by price, and the
    page counts. */
module ItemListing {
  import opened Http
  import opened ItemStore
  import opened Price

  /** `req.query`, with `page` and `limit` already read as integers. */
  datatype ItemQuery = ItemQuery(
    category: Option<string>, minPrice: Option<string>, maxPrice: Option<string>,
    page: Option<int>, limit: Option<int>)

  datatype Listing = Listing(
    items: seq<ItemDoc>, currentPage: int, totalPages: Option<int>, totalItems: nat, message: string)

  function PageNumber(q: ItemQuery): int
  {
    if q.page.Some? then q.page.value else 1
  }

  function PageSize(q: ItemQuery): int
  {
    if q.limit.Some? then q.limit.value else 10
  }

  /** `skip = (page - 1) * limit`. */
  function Skip(q: ItemQuery): int
  {
    (PageNumber(q) - 1) * PageSize(q)
  }

  // ---------------------------------------------------------------- category

  function InCategory(items: seq<ItemDoc>, categoryId: string): (r: seq<ItemDoc>)
    ensures |r| <= |items|
    ensures multiset(r) <= multiset(items)
    ensures forall x :: x in r <==> x in items && x.category == categoryId
  {
    if items == [] then []
    else
      var last := items[|items| - 1];
      assert items == items[..|items| - 1] + [last];
      InCategory(items[..|items| - 1], categoryId) + (if last.category == categoryId then [last] else [])
  }

  /** The items the store query matches: those of the named category when a category with
      that name exists; every item when the name is absent, empty or unknown. */
  function Matching(items: seq<ItemDoc>, categories: seq<Category>, q: ItemQuery): (r: seq<ItemDoc>)
    ensures multiset(r) <= multiset(items)
  {
    if Truthy(q.category) && FindCategoryByName(categories, q.category.value).Some? then
      InCategory(items, FindCategoryByName(categories, q.category.value).value.id)
    else items
  }

  /** The category filter applies exactly when the name is given and known. */
  lemma MatchingByCategory(items: seq<ItemDoc>, categories: seq<Category>, q: ItemQuery)
    ensures Truthy(q.category) && FindCategoryByName(categories, q.category.value).Some? ==>
      var c := FindCategoryByName(categories, q.category.value).value;
      && c.name == q.category.value
      && forall x :: x in Matching(items, categories, q) <==> x in items && x.category == c.id
    ensures (!Truthy(q.category) || forall c :: c in categories ==> c.name != q.category.value) ==>
      Matching(items, categories, q) == items
  {
  }

  // ---------------------------------------------------------------- paging

  function Abs(n: int): nat
  {
    if n < 0 then -n else n
  }

  /** `.skip(skip).limit(limit)`: drop `skip` items, then keep `|limit|` of them; a limit of 0
      means no limit. */
  function Window(items: seq<ItemDoc>, skip: nat, limit: int): (r: seq<ItemDoc>)
    ensures limit != 0 ==> |r| <= Abs(limit)
    ensures multiset(r) <= multiset(items)
    ensures |r| == if skip >= |items| then 0
                   else if limit == 0 || |items| - skip <= Abs(limit) then |items| - skip
                   else Abs(limit)
    ensures forall i :: 0 <= i < |r| ==> r[i] == items[skip + i]
  {
    var rest := if skip <= |items| then items[skip..] else [];
    assert skip <= |items| ==> items == items[..skip] + rest;
    var page := if limit == 0 || |rest| <= Abs(limit) then rest else rest[..Abs(limit)];
    assert rest == page + rest[|page|..];
    page
  }

  /** Consecutive pages of one size tile the query's result: page `k` followed by the next
      page is the double-size page starting at `k`. */
  lemma WindowsTile(items: seq<ItemDoc>, skip: nat, limit: nat)
    requires limit > 0
    ensures Window(items, skip, limit) + Window(items, skip + limit, limit) == Window(items, skip, 2 * limit)
  {
    var a, b, c := Window(items, skip, limit), Window(items, skip + limit, limit), Window(items, skip, 2 * limit);
    assert |a + b| == |c|;
    forall i | 0 <= i < |c| ensures (a + b)[i] == c[i] {
      if i >= |a| {
        assert |a| == limit;
        assert b[i - limit] == items[skip + i];
      }
    }
  }

  // ---------------------------------------------------------------- price range

  /** The filter's test: a readable price, at least `minPrice` when that is given and at most
      `maxPrice` when that is given. A given bound that is not a number lets nothing through,
      since every comparison with NaN is false. */
  predicate InPriceRange(item: ItemDoc, minPrice: Option<string>, maxPrice: Option<string>)
  {
    var p := ParseFloat(item.itemPrice);
    && p.Some?
    && (!Truthy(minPrice) || (ParseFloat(minPrice.value).Some? && p.value >= ParseFloat(minPrice.value).value))
    && (!Truthy(maxPrice) || (ParseFloat(maxPrice.value).Some? && p.value <= ParseFloat(maxPrice.value).value))
  }

  function PriceFilter(items: seq<ItemDoc>, minPrice: Option<string>, maxPrice: Option<string>): (r: seq<ItemDoc>)
    ensures multiset(r) <= multiset(items)
    ensures forall x :: x in r <==> x in items && InPriceRange(x, minPrice, maxPrice)
  {
    if items == [] then []
    else
      var last := items[|items| - 1];
      assert items == items[..|items| - 1] + [last];
      PriceFilter(items[..|items| - 1], minPrice, maxPrice)
        + (if InPriceRange(last, minPrice, maxPrice) then [last] else [])
  }

  // ---------------------------------------------------------------- sort

  function Key(item: ItemDoc): Option<real>
  {
    ParseFloat(item.itemPrice)
  }

  /** Ascending by `key`. The sort below takes the key as a parameter, so that its proof does
      not depend on how prices are read. */
  predicate SortedBy(s: seq<ItemDoc>, key: ItemDoc -> Option<real>)
  {
    forall i, j :: 0 <= i < j < |s| ==> KeyLe(key(s[i]), key(s[j]))
  }

  predicate SortedByPrice(s: seq<ItemDoc>)
  {
    SortedBy(s, Key)
  }

  /** Inserts `x` after every element whose key is not greater than its own, so that among
      equal keys the element inserted last stays last. */
  function Insert(x: ItemDoc, s: seq<ItemDoc>, key: ItemDoc -> Option<real>): (r: seq<ItemDoc>)
    requires SortedBy(s, key)
    ensures SortedBy(r, key)
    ensures multiset(r) == multiset(s) + multiset{x}
  {
    if s == [] then [x]
    else if !KeyLe(key(s[0]), key(x)) then
      assert forall j :: 0 <= j < |s| ==> KeyLe(key(x), key(s[j]));
      [x] + s
    else
      var tail := Insert(x, s[1..], key);
      assert s == [s[0]] + s[1..];
      forall j | 0 <= j < |tail| ensures KeyLe(key(s[0]), key(tail[j])) {
        assert tail[j] in multiset(tail);
        assert tail[j] == x || tail[j] in s[1..];
      }
      [s[0]] + tail
  }

  function SortBy(s: seq<ItemDoc>, key: ItemDoc -> Option<real>): (r: seq<ItemDoc>)
    ensures SortedBy(r, key)
    ensures multiset(r) == multiset(s)
  {
    if s == [] then []
    else
      assert s == s[..|s| - 1] + [s[|s| - 1]];
      Insert(s[|s| - 1], SortBy(s[..|s| - 1], key), key)
  }

  /** The elements of `s` whose key is `k`, in their order in `s`. A sort is stable when it
      keeps this subsequence for every `k`. */
  function WithKey(s: seq<ItemDoc>, key: ItemDoc -> Option<real>, k: Option<real>): seq<ItemDoc>
  {
    if s == [] then []
    else WithKey(s[..|s| - 1], key, k) + (if key(s[|s| - 1]) == k then [s[|s| - 1]] else [])
  }

  lemma {:induction false} WithKeyAppend(a: seq<ItemDoc>, b: seq<ItemDoc>, key: ItemDoc -> Option<real>, k: Option<real>)
    ensures WithKey(a + b, key, k) == WithKey(a, key, k) + WithKey(b, key, k)
  {
    if b == [] {
      assert a + b == a;
    } else {
      var c := a + b;
      assert c[..|c| - 1] == a + b[..|b| - 1];
      WithKeyAppend(a, b[..|b| - 1], key, k);
    }
  }

  lemma {:induction false} WithAbsentKey(s: seq<ItemDoc>, key: ItemDoc -> Option<real>, k: Option<real>)
    requires forall i :: 0 <= i < |s| ==> key(s[i]) != k
    ensures WithKey(s, key, k) == []
  {
    if s != [] {
      WithAbsentKey(s[..|s| - 1], key, k);
    }
  }

  /** An element whose key is below the first key of a sorted sequence shares its key with
      none of its elements. */
  lemma InsertFrontStable(x: ItemDoc, s: seq<ItemDoc>, key: ItemDoc -> Option<real>, k: Option<real>)
    requires SortedBy(s, key) && s != [] && !KeyLe(key(s[0]), key(x))
    ensures WithKey(Insert(x, s, key), key, k) == WithKey(s, key, k) + (if key(x) == k then [x] else [])
  {
    assert Insert(x, s, key) == [x] + s;
    forall i | 0 <= i < |s| ensures key(s[i]) != key(x) {
      assert i == 0 || KeyLe(key(s[0]), key(s[i]));
    }
    WithAbsentKey(s, key, key(x));
    WithKeyAppend([x], s, key, k);
    assert WithKey([x], key, k) == WithKey([], key, k) + (if key(x) == k then [x] else []);
  }

  /** Inserting `x` appends it to the elements of its key and leaves every other key's
      elements as they were. */
  lemma {:induction false} InsertStable(x: ItemDoc, s: seq<ItemDoc>, key: ItemDoc -> Option<real>, k: Option<real>)
    requires SortedBy(s, key)
    ensures WithKey(Insert(x, s, key), key, k) == WithKey(s, key, k) + (if key(x) == k then [x] else [])
  {
    if s == [] {
      assert Insert(x, s, key) == [] + [x];
    } else if !KeyLe(key(s[0]), key(x)) {
      InsertFrontStable(x, s, key, k);
    } else {
      SortedTail(s, key);
      var tail := Insert(x, s[1..], key);
      assert Insert(x, s, key) == [s[0]] + tail;
      assert s == [s[0]] + s[1..];
      InsertStable(x, s[1..], key, k);
      ConsWithKey(s[0], s[1..], tail, if key(x) == k then [x] else [], key, k);
    }
  }

  /** Putting the same element in front of two sequences keeps a relation between their
      elements of one key. */
  lemma ConsWithKey(a: ItemDoc, rest: seq<ItemDoc>, tail: seq<ItemDoc>, added: seq<ItemDoc>,
                    key: ItemDoc -> Option<real>, k: Option<real>)
    requires WithKey(tail, key, k) == WithKey(rest, key, k) + added
    ensures WithKey([a] + tail, key, k) == WithKey([a] + rest, key, k) + added
  {
    WithKeyAppend([a], tail, key, k);
    WithKeyAppend([a], rest, key, k);
  }

  lemma SortedTail(s: seq<ItemDoc>, key: ItemDoc -> Option<real>)
    requires SortedBy(s, key) && s != []
    ensures SortedBy(s[1..], key)
  {
  }

  /** The sort is stable: for every key, the elements with that key keep their order. */
  lemma {:induction false} SortByStable(s: seq<ItemDoc>, key: ItemDoc -> Option<real>, k: Option<real>)
    ensures WithKey(SortBy(s, key), key, k) == WithKey(s, key, k)
  {
    if s != [] {
      SortByStable(s[..|s| - 1], key, k);
      InsertStable(s[|s| - 1], SortBy(s[..|s| - 1], key), key, k);
    }
  }

  /** `r` holds the items of `s` with each price in the same order as `s`. */
  ghost predicate EqualPricesInOrder(r: seq<ItemDoc>, s: seq<ItemDoc>)
  {
    forall k :: WithKey(r, Key, k) == WithKey(s, Key, k)
  }

  /** `items.sort((a, b) => parseFloat(a.itemPrice) - parseFloat(b.itemPrice))`: a
      rearrangement of the items in ascending price in which items of equal price keep the
      order they had, as `Array.prototype.sort` is stable and the comparator answers 0 for
      them. */
  function SortByPrice(s: seq<ItemDoc>): (r: seq<ItemDoc>)
    ensures SortedByPrice(r)
    ensures multiset(r) == multiset(s)
    ensures |r| == |s|
    ensures EqualPricesInOrder(r, s)
  {
    var r := SortBy(s, Key);
    assert |multiset(r)| == |multiset(s)|;
    assert forall k :: WithKey(r, Key, k) == WithKey(s, Key, k) by {
      forall k ensures WithKey(r, Key, k) == WithKey(s, Key, k) {
        SortByStable(s, Key, k);
      }
    }
    r
  }

  lemma {:induction false} WithUniformKey(s: seq<ItemDoc>, key: ItemDoc -> Option<real>, k: Option<real>)
    requires forall i :: 0 <= i < |s| ==> key(s[i]) == k
    ensures WithKey(s, key, k) == s
  {
    if s != [] {
      WithUniformKey(s[..|s| - 1], key, k);
    }
  }

  /** Items that all have the same price are listed in store order. */
  lemma SamePriceKeepsStoreOrder(s: seq<ItemDoc>)
    requires forall i :: 0 <= i < |s| ==> Key(s[i]) == Key(s[0])
    ensures SortByPrice(s) == s
  {
    if s != [] {
      var r := SortByPrice(s);
      forall i | 0 <= i < |r| ensures Key(r[i]) == Key(s[0]) {
        assert r[i] in multiset(s);
      }
      WithUniformKey(s, Key, Key(s[0]));
      WithUniformKey(r, Key, Key(s[0]));
    }
  }

  // ---------------------------------------------------------------- the handler

  /** `Math.ceil(n / d)` for a non-zero `d`. */
  function CeilDiv(n: nat, d: int): (r: int)
    requires d != 0
    ensures d > 0 ==> (r - 1) * d < n <= r * d
    ensures d < 0 ==> r * d <= n < (r - 1) * d
  {
    if d > 0 then (n + d - 1) / d else -(n / -d)
  }

  /** `getAllItems`. A negative skip (a page below 1) is refused by the store. Otherwise the
      answer lists, in ascending price and with equal prices in store order, the items
      of the store page that pass the price range (every item of the page when no bound is given); `totalItems` is their number and
      `totalPages` is `ceil(totalItems / limit)`, absent (JSON `null`) for a limit of 0. */
  method GetAllItems(items: seq<ItemDoc>, categories: seq<Category>, q: ItemQuery)
    returns (outcome: Outcome<Listing>)
    ensures Skip(q) < 0 <==> outcome.Next?
    ensures Skip(q) >= 0 ==>
      var window := Window(Matching(items, categories, q), Skip(q), PageSize(q));
      && outcome.Respond? && outcome.status == 200
      && var r := outcome.body;
      && SortedByPrice(r.items)
      && multiset(r.items) <= multiset(window)
      && multiset(r.items) == multiset(InRange(window, q.minPrice, q.maxPrice))
      && EqualPricesInOrder(r.items, InRange(window, q.minPrice, q.maxPrice))
      && (Truthy(q.minPrice) || Truthy(q.maxPrice) ==>
            forall x :: x in r.items <==> x in window && InPriceRange(x, q.minPrice, q.maxPrice))
      && (!Truthy(q.minPrice) && !Truthy(q.maxPrice) ==> multiset(r.items) == multiset(window))
      && r.currentPage == PageNumber(q)
      && r.totalItems == |r.items|
      && r.totalPages == (if PageSize(q) == 0 then None else Some(CeilDiv(|r.items|, PageSize(q))))
      && r.message == (if |r.items| > 0 then "Items fetching successful!" else "No items found matching the criteria")
  {
    var page, limit := PageNumber(q), PageSize(q);
    var skip := (page - 1) * limit;
    var query := items;
    if Truthy(q.category) {
      var categoryDoc := FindCategoryByName(categories, q.category.value);
      if categoryDoc.Some? {
        query := InCategory(items, categoryDoc.value.id);
      }
    }
    assert query == Matching(items, categories, q);
    if skip < 0 {
      return Next(HttpError(None, "skip must be non-negative"));
    }
    var found := Window(query, skip, limit);
    found := FilterAndSort(found, q.minPrice, q.maxPrice);
    var totalItems := |found|;
    var totalPages := if limit == 0 then None else Some(CeilDiv(totalItems, limit));
    var message := if |found| > 0 then "Items fetching successful!" else "No items found matching the criteria";
    outcome := Respond(200, Listing(found, page, totalPages, totalItems, message));
  }

  /** The page after the price filter, which runs only when a bound is given. */
  function InRange(window: seq<ItemDoc>, minPrice: Option<string>, maxPrice: Option<string>): seq<ItemDoc>
  {
    if Truthy(minPrice) || Truthy(maxPrice) then PriceFilter(window, minPrice, maxPrice) else window
  }

  /** The in-memory steps of the listing: the price filter, when a bound is given, then the
      sort by price. */
  method FilterAndSort(window: seq<ItemDoc>, minPrice: Option<string>, maxPrice: Option<string>)
    returns (listed: seq<ItemDoc>)
    ensures SortedByPrice(listed)
    ensures multiset(listed) <= multiset(window)
    ensures multiset(listed) == multiset(InRange(window, minPrice, maxPrice))
    ensures EqualPricesInOrder(listed, InRange(window, minPrice, maxPrice))
    ensures Truthy(minPrice) || Truthy(maxPrice) ==>
      forall x :: x in listed <==> x in window && InPriceRange(x, minPrice, maxPrice)
    ensures !Truthy(minPrice) && !Truthy(maxPrice) ==> multiset(listed) == multiset(window)
  {
    var found := window;
    if Truthy(minPrice) || Truthy(maxPrice) {
      found := PriceFilter(found, minPrice, maxPrice);
    }
    SortKeepsMembers(found);
    listed := SortByPrice(found);
  }

  lemma SortKeepsMembers(s: seq<ItemDoc>)
    ensures forall x :: x in SortByPrice(s) <==> x in s
  {
    var r := SortByPrice(s);
    assert forall x :: x in r <==> x in multiset(r);
  }

  lemma CeilDivAtMostOne(n: nat, d: int)
    requires 0 < d && n <= d
    ensures 0 <= CeilDiv(n, d) <= 1
  {
    if n > 0 {
      assert d <= n + d - 1 < 2 * d;
    }
  }

  /** `totalItems` counts the returned page only, never the whole collection: with a positive
      limit, `totalPages` is at most 1 whatever the collection holds. */
  lemma TotalPagesAtMostOne(items: seq<ItemDoc>, categories: seq<Category>, q: ItemQuery, found: seq<ItemDoc>)
    requires Skip(q) >= 0 && PageSize(q) > 0
    requires multiset(found) <= multiset(Window(Matching(items, categories, q), Skip(q), PageSize(q)))
    ensures 0 <= CeilDiv(|found|, PageSize(q)) <= 1
  {
    var window := Window(Matching(items, categories, q), Skip(q), PageSize(q));
    assert multiset(window) == multiset(found) + (multiset(window) - multiset(found));
    assert |found| <= |window| <= PageSize(q);
    CeilDivAtMostOne(|found|, PageSize(q));
  }

  /** With a price range, every listed item has a readable price within it. */
  lemma ListedPricesWithinRange(window: seq<ItemDoc>, minPrice: Option<string>, maxPrice: Option<string>, x: ItemDoc)
    requires x in SortByPrice(PriceFilter(window, minPrice, maxPrice))
    ensures Key(x).Some?
    ensures Truthy(minPrice) ==> ParseFloat(minPrice.value).Some? && Key(x).value >= ParseFloat(minPrice.value).value
    ensures Truthy(maxPrice) ==> ParseFloat(maxPrice.value).Some? && Key(x).value <= ParseFloat(maxPrice.value).value
  {
    var filtered := PriceFilter(window, minPrice, maxPrice);
    assert x in multiset(SortByPrice(filtered));
    assert x in filtered;
  }
}
