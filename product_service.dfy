/**
 * Product catalogue operations: create, update, delete and look up by id
 * against the store, and the listing query's parameter handling (sort
 * string, defaults, availability filter) around the repository's search.
 */
module ProductService {
  import opened Wrappers
  import opened Domain
  import opened Text
  import opened ProductMapper
  import opened Repositories

  datatype Direction = ASC | DESC

  /** The criteria handed to the repository's category/price search, with its page request. */
  datatype ProductQuery = ProductQuery(
    page: int,
    size: int,
    direction: Direction,
    sortField: string,
    category: string,
    minPrice: int,
    /** None: no upper bound (the largest double in the source) */
    maxPrice: Option<int>)

  /** The repository search: stored products (with their ids) matching a query, in page order. */
  type ProductSearch = ProductQuery -> seq<(string, Product)>

  /** The direction named by the sort string's pieces: ascending only for a second piece "asc" in any case. */
  function SortDirection(parts: seq<string>): (d: Direction)
    ensures d == ASC <==> |parts| > 1 && EqualsIgnoreCase(parts[1], "asc")
  {
    if |parts| > 1 && EqualsIgnoreCase(parts[1], "asc") then ASC else DESC
  }

  /**
   * The query for the list parameters, or the exception building it throws:
   * no first piece to sort by (an index out of bounds), a sort property
   * without text, a negative page index or a page size below one.
   */
  function BuildQuery(page: int, size: int, sort: string, category: Option<string>,
                      minPrice: Option<int>, maxPrice: Option<int>): (r: Result<ProductQuery>)
    ensures r.Err? ==> r.error.Other?
    ensures r.Ok? ==> r.value.page == page >= 0 && r.value.size == size >= 1
    ensures r.Ok? ==> HasText(r.value.sortField) && ',' !in r.value.sortField
    ensures r.Ok? ==> r.value.maxPrice == maxPrice
  {
    var parts := JavaSplit(sort);
    var direction := SortDirection(parts);
    if |parts| == 0 then Err(Other("Index 0 out of bounds for length 0"))
    else if !HasText(parts[0]) then Err(Other("Property must not be null or empty"))
    else if page < 0 then Err(Other("Page index must not be less than zero"))
    else if size < 1 then Err(Other("Page size must not be less than one"))
    else
      Ok(ProductQuery(page, size, direction, parts[0],
                      if category.Some? then category.value else "",
                      if minPrice.Some? then minPrice.value else 0,
                      maxPrice))
  }

  /** What the list's availability parameter keeps: everything, only products in stock, or only sold-out ones. */
  predicate Keeps(product: Product, available: Option<bool>)
  {
    available.None? || (if available.value then product.stock > 0 else product.stock == 0)
  }

  /** The entries that the availability parameter keeps, in their original order. */
  function FilterByAvailability(entries: seq<(string, Product)>, available: Option<bool>): (r: seq<(string, Product)>)
    ensures |r| <= |entries|
    ensures forall k :: 0 <= k < |r| ==> Keeps(r[k].1, available)
  {
    if entries == [] then []
    else
      var rest := FilterByAvailability(entries[1..], available);
      if Keeps(entries[0].1, available) then [entries[0]] + rest else rest
  }

  /** The filter keeps exactly the entries the availability parameter keeps. */
  lemma {:induction false} FilterKeepsExactly(entries: seq<(string, Product)>, available: Option<bool>)
    ensures forall e :: e in FilterByAvailability(entries, available) <==> e in entries && Keeps(e.1, available)
  {
    if entries != [] {
      FilterKeepsExactly(entries[1..], available);
      assert forall e :: e in entries <==> e == entries[0] || e in entries[1..];
    }
  }

  function ToResponses(entries: seq<(string, Product)>): (r: seq<ProductResponse>)
    ensures |r| == |entries|
    ensures forall k :: 0 <= k < |entries| ==> r[k] == ToResponse(entries[k].0, entries[k].1)
  {
    if entries == [] then [] else [ToResponse(entries[0].0, entries[0].1)] + ToResponses(entries[1..])
  }

  /**
   * One page of the product list: the query's failure, or the responses of
   * exactly those products of the search result that the availability
   * parameter keeps.
   */
  function List(page: int, size: int, sort: string, category: Option<string>, minPrice: Option<int>,
                maxPrice: Option<int>, available: Option<bool>, search: ProductSearch): (r: Result<seq<ProductResponse>>)
    ensures var q := BuildQuery(page, size, sort, category, minPrice, maxPrice);
      && (q.Err? ==> r == Err(q.error))
      && (q.Ok? ==> r.Ok? && |r.value| <= |search(q.value)|)
      && (q.Ok? ==> forall e :: e in search(q.value) && Keeps(e.1, available) <==>
                                 exists k :: 0 <= k < |r.value| && FromResponse(r.value[k]) == e)
  {
    match BuildQuery(page, size, sort, category, minPrice, maxPrice)
    case Err(e) => Err(e)
    case Ok(q) =>
      var kept := FilterByAvailability(search(q), available);
      FilterKeepsExactly(search(q), available);
      var r := ToResponses(kept);
      assert forall k :: 0 <= k < |r| ==> FromResponse(r[k]) == kept[k];
      Ok(r)
  }

  /**
   * How the list parameters are read: the sort field is the text before the
   * first comma, the direction is ascending exactly when a second piece equals
   * "asc" ignoring case, a missing category means "" and a missing minimum
   * price means 0; the only failures are the four of BuildQuery.
   */
  lemma BuildQueryReadsParameters(page: int, size: int, sort: string, category: Option<string>,
                                  minPrice: Option<int>, maxPrice: Option<int>)
    ensures var r := BuildQuery(page, size, sort, category, minPrice, maxPrice);
      && (r.Err? <==> (sort != [] && forall k :: 0 <= k < |sort| ==> sort[k] == ',')
                      || !HasText(TakeUntilComma(sort)) || page < 0 || size < 1)
      && (r.Err? ==> r.error.Other?)
      && (r.Ok? ==>
            && r.value.sortField == TakeUntilComma(sort)
            && (r.value.direction == ASC <==> |JavaSplit(sort)| > 1 && EqualsIgnoreCase(JavaSplit(sort)[1], "asc"))
            && r.value.page == page && r.value.size == size
            && (category.None? ==> r.value.category == "") && (category.Some? ==> r.value.category == category.value)
            && (minPrice.None? ==> r.value.minPrice == 0) && (minPrice.Some? ==> r.value.minPrice == minPrice.value)
            && r.value.maxPrice == maxPrice)
  {
    JavaSplitEmptyIff(sort);
    if JavaSplit(sort) != [] {
      JavaSplitFirst(sort);
    }
  }

  /** Filtering is applied entry by entry, so it keeps the order of the search result. */
  lemma {:induction false} FilterPreservesOrder(a: seq<(string, Product)>, b: seq<(string, Product)>, available: Option<bool>)
    ensures FilterByAvailability(a + b, available) == FilterByAvailability(a, available) + FilterByAvailability(b, available)
  {
    if a == [] {
      assert a + b == b;
    } else {
      var ab := a + b;
      assert ab[0] == a[0] && ab[1..] == a[1..] + b;
      FilterPreservesOrder(a[1..], b, available);
      var rest := FilterByAvailability(a[1..], available);
      var fb := FilterByAvailability(b, available);
      if Keeps(a[0].1, available) {
        calc {
          FilterByAvailability(ab, available);
          [a[0]] + FilterByAvailability(a[1..] + b, available);
          [a[0]] + (rest + fb);
          ([a[0]] + rest) + fb;
        }
      }
    }
  }

  /** Without an availability parameter nothing is filtered out. */
  lemma {:induction false} FilterWithoutAvailability(entries: seq<(string, Product)>)
    ensures FilterByAvailability(entries, None) == entries
  {
    if entries != [] {
      FilterWithoutAvailability(entries[1..]);
    }
  }

  /** A new product under a fresh id generated by the store. */
  method Create(store: Store, request: ProductRequest, imageUrl: Option<string>, id: string)
    returns (r: ProductResponse)
    requires id !in store.products
    modifies store
    ensures store.State() == old(store.State()).(products := old(store.products)[id := ToEntity(request, imageUrl)])
    ensures r == ToResponse(id, ToEntity(request, imageUrl))
  {
    var product := ToEntity(request, imageUrl);
    store.products := store.products[id := product];
    r := ToResponse(id, product);
  }

  /** Overwrites the product's fields from the request; an unknown id fails before anything is saved. */
  method Update(store: Store, id: string, request: ProductRequest, imageUrl: Option<string>)
    returns (r: Result<ProductResponse>)
    modifies store
    ensures id !in old(store.products) ==>
              r == Err(ResourceNotFound("Product not found")) && store.State() == old(store.State())
    ensures id in old(store.products) ==>
              var updated := UpdateEntity(old(store.products)[id], request, imageUrl);
              && r == Ok(ToResponse(id, updated))
              && store.State() == old(store.State()).(products := old(store.products)[id := updated])
  {
    if id !in store.products {
      return Err(ResourceNotFound("Product not found"));
    }
    var product := UpdateEntity(store.products[id], request, imageUrl);
    store.products := store.products[id := product];
    r := Ok(ToResponse(id, product));
  }

  /** Removes the product; an unknown id fails and nothing changes. */
  method Delete(store: Store, id: string) returns (r: Result<()>)
    modifies store
    ensures id !in old(store.products) ==>
              r == Err(ResourceNotFound("Product not found")) && store.State() == old(store.State())
    ensures id in old(store.products) ==>
              r == Ok(()) && store.State() == old(store.State()).(products := old(store.products) - {id})
  {
    if id !in store.products {
      return Err(ResourceNotFound("Product not found"));
    }
    store.products := store.products - {id};
    r := Ok(());
  }

  /** The stored product as a response, or NotFound for an unknown id. */
  method GetById(store: Store, id: string) returns (r: Result<ProductResponse>)
    ensures r.Err? <==> id !in store.products
    ensures r.Err? ==> r.error == ResourceNotFound("Product not found")
    ensures r.Ok? ==> FromResponse(r.value) == (id, store.products[id])
  {
    if id !in store.products {
      return Err(ResourceNotFound("Product not found"));
    }
    r := Ok(ToResponse(id, store.products[id]));
  }
}
