/**
 * Cart operations: add a product (merging into its line), set a line's
 * quantity, remove a product's lines, read the cart. Each call first resolves
 * the user's id from the e-mail and finds the user's cart, moving a cart still
 * stored under the e-mail to the user id.
 *
 * Every write stays once issued: a cart moved or saved before a later step
 * throws remains moved or saved. The transactional annotation on addItem,
 * updateQuantity and removeItem is not modelled.
 */
module CartService {
  import opened Wrappers
  import opened Domain
  import opened Repositories

  datatype CartItemResponse = CartItemResponse(productId: string, quantity: int, name: string, price: int)

  datatype CartResponse = CartResponse(items: seq<CartItemResponse>)

  // ---------------------------------------------------------------------------
  // Cart lines

  /** The position of the first line for the product, if there is one. */
  function FindLine(items: seq<CartItem>, productId: string): (r: Option<nat>)
    ensures r.Some? ==> r.value < |items| && items[r.value].productId == productId
    ensures r.Some? ==> forall j :: 0 <= j < r.value ==> items[j].productId != productId
    ensures r.None? ==> forall j :: 0 <= j < |items| ==> items[j].productId != productId
  {
    if items == [] then None
    else if items[0].productId == productId then Some(0)
    else
      match FindLine(items[1..], productId)
      case None => None
      case Some(i) => Some(i + 1)
  }

  /** No two lines name the same product. */
  ghost predicate UniqueProducts(items: seq<CartItem>)
  {
    forall i, j :: 0 <= i < j < |items| ==> items[i].productId != items[j].productId
  }

  /** The quantity of a product summed over the lines that name it. */
  function QuantityOf(items: seq<CartItem>, productId: string): int
  {
    if items == [] then 0
    else (if items[0].productId == productId then items[0].quantity else 0) + QuantityOf(items[1..], productId)
  }

  /** addItem's change to the lines: add to the product's first line, or append a new line. */
  function MergeLine(items: seq<CartItem>, productId: string, quantity: int): (r: seq<CartItem>)
    ensures |items| <= |r| <= |items| + 1
    ensures forall j :: 0 <= j < |items| ==> r[j].productId == items[j].productId
    ensures exists j :: 0 <= j < |r| && r[j].productId == productId
  {
    match FindLine(items, productId)
    case None =>
      var r := items + [CartItem(productId, quantity)];
      assert r[|items|].productId == productId;
      r
    case Some(i) =>
      var r := items[i := items[i].(quantity := items[i].quantity + quantity)];
      assert r[i].productId == productId;
      r
  }

  /** updateQuantity's change: the product's first line gets the quantity; None when no line names it. */
  function SetQuantity(items: seq<CartItem>, productId: string, quantity: int): (r: Option<seq<CartItem>>)
    ensures r.Some? ==> |r.value| == |items| && exists j :: 0 <= j < |items| && r.value[j] == CartItem(productId, quantity)
    ensures r.Some? ==> forall j :: 0 <= j < |items| ==> r.value[j].productId == items[j].productId
  {
    match FindLine(items, productId)
    case None => None
    case Some(i) =>
      var r := items[i := items[i].(quantity := quantity)];
      assert r[i] == CartItem(productId, quantity);
      Some(r)
  }

  /** removeItem's change: every line for the product goes, the rest keep their order. */
  function RemoveLines(items: seq<CartItem>, productId: string): (r: seq<CartItem>)
    ensures forall x :: x in r <==> x in items && x.productId != productId
  {
    if items == [] then []
    else
      var rest := RemoveLines(items[1..], productId);
      if items[0].productId == productId then rest else [items[0]] + rest
  }

  lemma {:induction false} QuantityOfAppend(a: seq<CartItem>, b: seq<CartItem>, productId: string)
    ensures QuantityOf(a + b, productId) == QuantityOf(a, productId) + QuantityOf(b, productId)
  {
    if a == [] {
      assert a + b == b;
    } else {
      assert (a + b)[1..] == a[1..] + b;
      QuantityOfAppend(a[1..], b, productId);
    }
  }

  lemma {:induction false} QuantityOfUpdate(items: seq<CartItem>, i: nat, x: CartItem, productId: string)
    requires i < |items| && x.productId == items[i].productId
    ensures QuantityOf(items[i := x], productId)
         == QuantityOf(items, productId) + (if x.productId == productId then x.quantity - items[i].quantity else 0)
  {
    if i == 0 {
      assert items[i := x][1..] == items[1..];
    } else {
      assert items[i := x][1..] == items[1..][i - 1 := x];
      QuantityOfUpdate(items[1..], i - 1, x, productId);
    }
  }

  /**
   * Adding to the cart: a product already present has the quantity added to
   * its line; otherwise one line is appended at the end. Every line for
   * another product keeps its place and content, the product's total quantity
   * grows by exactly the amount added, and product ids stay unique.
   */
  lemma MergeLineEffect(items: seq<CartItem>, productId: string, quantity: int)
    ensures var r := MergeLine(items, productId, quantity);
      && (FindLine(items, productId).None? ==> r == items + [CartItem(productId, quantity)])
      && (FindLine(items, productId).Some? ==> |r| == |items|)
      && (forall j :: 0 <= j < |items| && items[j].productId != productId ==> r[j] == items[j])
      && QuantityOf(r, productId) == QuantityOf(items, productId) + quantity
      && (UniqueProducts(items) ==> UniqueProducts(r))
  {
    var r := MergeLine(items, productId, quantity);
    match FindLine(items, productId)
    case None =>
      QuantityOfAppend(items, [CartItem(productId, quantity)], productId);
      assert QuantityOf([CartItem(productId, quantity)], productId) == quantity by {
        assert [CartItem(productId, quantity)][1..] == [];
      }
    case Some(i) =>
      QuantityOfUpdate(items, i, items[i].(quantity := items[i].quantity + quantity), productId);
  }

  /** Other products' quantities are untouched by adding to the cart. */
  lemma MergeLineOthers(items: seq<CartItem>, productId: string, quantity: int, other: string)
    requires other != productId
    ensures QuantityOf(MergeLine(items, productId, quantity), other) == QuantityOf(items, other)
  {
    match FindLine(items, productId)
    case None =>
      QuantityOfAppend(items, [CartItem(productId, quantity)], other);
      assert [CartItem(productId, quantity)][1..] == [];
    case Some(i) =>
      QuantityOfUpdate(items, i, items[i].(quantity := items[i].quantity + quantity), other);
  }

  /** Adding a and then b gives the same lines as adding a + b once: one line, never two. */
  lemma MergeTwice(items: seq<CartItem>, productId: string, a: int, b: int)
    ensures MergeLine(MergeLine(items, productId, a), productId, b) == MergeLine(items, productId, a + b)
  {
    var r1 := MergeLine(items, productId, a);
    var f := FindLine(items, productId);
    var i := if f.Some? then f.value else |items|;
    assert r1[i].productId == productId;
    assert forall j :: 0 <= j < i ==> r1[j].productId != productId;
    var g := FindLine(r1, productId);
    assert g.Some? && g.value <= i;
    assert g.value == i;
  }

  /**
   * Setting a quantity fails exactly when no line names the product; otherwise
   * only the first such line changes, to the given quantity, whatever its
   * sign or the stock; the lines' products stay as they were.
   */
  lemma SetQuantityEffect(items: seq<CartItem>, productId: string, quantity: int)
    ensures var r := SetQuantity(items, productId, quantity);
      && (r.None? <==> forall j :: 0 <= j < |items| ==> items[j].productId != productId)
      && (r.Some? ==>
            && |r.value| == |items|
            && (forall j :: 0 <= j < |items| ==> r.value[j].productId == items[j].productId)
            && var i := FindLine(items, productId).value;
               r.value[i].quantity == quantity && forall j :: 0 <= j < |items| && j != i ==> r.value[j] == items[j])
      && (r.Some? && UniqueProducts(items) ==> UniqueProducts(r.value) && QuantityOf(r.value, productId) == quantity)
  {
    match FindLine(items, productId)
    case None =>
    case Some(i) =>
      var r := items[i := items[i].(quantity := quantity)];
      if UniqueProducts(items) {
        QuantityOfUpdate(items, i, r[i], productId);
        UniqueQuantity(items, i, productId);
      }
  }

  lemma {:induction false} UniqueQuantity(items: seq<CartItem>, i: nat, productId: string)
    requires UniqueProducts(items) && i < |items| && items[i].productId == productId
    ensures QuantityOf(items, productId) == items[i].quantity
  {
    if i == 0 {
      AbsentQuantity(items[1..], productId);
    } else {
      assert items[0].productId != productId;
      UniqueQuantity(items[1..], i - 1, productId);
    }
  }

  lemma {:induction false} AbsentQuantity(items: seq<CartItem>, productId: string)
    requires forall j :: 0 <= j < |items| ==> items[j].productId != productId
    ensures QuantityOf(items, productId) == 0
  {
    if items != [] {
      AbsentQuantity(items[1..], productId);
    }
  }

  /**
   * Removing works line by line, so the remaining lines keep their order;
   * removing an absent product changes nothing, and removing twice is
   * removing once.
   */
  lemma {:induction false} RemoveLinesKeepsOrder(a: seq<CartItem>, b: seq<CartItem>, productId: string)
    ensures RemoveLines(a + b, productId) == RemoveLines(a, productId) + RemoveLines(b, productId)
  {
    if a == [] {
      assert a + b == b;
    } else {
      var ab := a + b;
      assert ab[0] == a[0] && ab[1..] == a[1..] + b;
      RemoveLinesKeepsOrder(a[1..], b, productId);
      if a[0].productId != productId {
        assert [a[0]] + (RemoveLines(a[1..], productId) + RemoveLines(b, productId))
            == ([a[0]] + RemoveLines(a[1..], productId)) + RemoveLines(b, productId);
      }
    }
  }

  lemma {:induction false} RemoveAbsentIsNoOp(items: seq<CartItem>, productId: string)
    requires forall j :: 0 <= j < |items| ==> items[j].productId != productId
    ensures RemoveLines(items, productId) == items
  {
    if items != [] {
      RemoveAbsentIsNoOp(items[1..], productId);
      assert items == [items[0]] + items[1..];
    }
  }

  lemma RemoveTwice(items: seq<CartItem>, productId: string)
    ensures RemoveLines(RemoveLines(items, productId), productId) == RemoveLines(items, productId)
  {
    var r := RemoveLines(items, productId);
    forall j | 0 <= j < |r| ensures r[j].productId != productId {
      assert r[j] in r;
    }
    RemoveAbsentIsNoOp(r, productId);
  }

  // ---------------------------------------------------------------------------
  // Finding the user's cart

  /**
   * findOrCreateCart: the cart under the user id; else the cart under the
   * e-mail, moved to the user id; else a new empty cart for the user id, which
   * is not stored. Returns the cart and the carts collection afterwards.
   */
  function LookupCart(carts: map<string, Cart>, userId: string, email: string): (r: (Cart, map<string, Cart>))
    requires CartsKeyedByOwner(carts)
    ensures r.0.userId == userId && CartsKeyedByOwner(r.1)
  {
    if userId in carts then (carts[userId], carts)
    else if email in carts then
      var moved := carts[email].(userId := userId);
      (moved, (carts - {email})[userId := moved])
    else (Cart(userId, []), carts)
  }

  /**
   * findOrMigrateCart: LookupCart, then a cart owned by the e-mail is saved
   * under the user id. LookupCart has already given the cart the user id, so
   * that save happens only when the user id is the e-mail itself; it changes
   * the carts exactly when no cart was stored under that key, and then it
   * stores the new empty cart.
   */
  function MigrateCart(carts: map<string, Cart>, userId: string, email: string): (r: (Cart, map<string, Cart>))
    requires CartsKeyedByOwner(carts)
    ensures r.0.userId == userId && CartsKeyedByOwner(r.1)
    ensures r.0 == LookupCart(carts, userId, email).0
    ensures userId != email ==> r.1 == LookupCart(carts, userId, email).1
    ensures userId in carts ==> r == (carts[userId], carts)
    ensures userId !in carts && email !in carts ==>
              r.0 == Cart(userId, []) && r.1 == (if userId == email then carts[userId := Cart(userId, [])] else carts)
    ensures r.1 != LookupCart(carts, userId, email).1 <==> userId == email && userId !in carts
  {
    var (cart, carts') := LookupCart(carts, userId, email);
    if cart.userId == email then
      assert userId in carts ==> carts'[userId := cart] == carts';
      (cart, carts'[userId := cart])
    else (cart, carts')
  }

  /**
   * The lookup finds the cart under the user id first and the e-mail second,
   * keeps its lines, and moves it at most once: looking again finds the same
   * cart and changes nothing. Carts of other owners are untouched.
   */
  lemma LookupCartEffect(carts: map<string, Cart>, userId: string, email: string)
    requires CartsKeyedByOwner(carts)
    ensures var (cart, after) := LookupCart(carts, userId, email);
      && (userId in carts ==> cart == carts[userId] && after == carts)
      && (userId !in carts && email in carts ==>
            cart.items == carts[email].items && userId in after && email !in after)
      && (userId !in carts && email !in carts ==> cart == Cart(userId, []) && after == carts)
      && (forall k :: k in carts && k != email && k != userId ==> k in after && after[k] == carts[k])
      && (userId in after ==> LookupCart(after, userId, email) == (cart, after))
  {
  }

  // ---------------------------------------------------------------------------
  // Responses

  /** The response lines: one per cart line, with the product's current name and price. */
  function LineViews(products: map<string, Product>, items: seq<CartItem>): (r: Result<seq<CartItemResponse>>)
    ensures r.Err? <==> exists k :: 0 <= k < |items| && items[k].productId !in products
    ensures r.Err? ==> r.error == ResourceNotFound("Product not found")
    ensures r.Ok? ==> |r.value| == |items|
    ensures r.Ok? ==> forall k :: 0 <= k < |items| ==>
              && r.value[k].productId == items[k].productId && r.value[k].quantity == items[k].quantity
              && r.value[k].name == products[items[k].productId].name
              && r.value[k].price == products[items[k].productId].price
  {
    if items == [] then Ok([])
    else if items[0].productId !in products then Err(ResourceNotFound("Product not found"))
    else
      var p := products[items[0].productId];
      match LineViews(products, items[1..])
      case Err(e) => Err(e)
      case Ok(rest) => Ok([CartItemResponse(items[0].productId, items[0].quantity, p.name, p.price)] + rest)
  }

  /** The cart response: one line per cart line, or NotFound when some line's product is gone. */
  function CartView(products: map<string, Product>, items: seq<CartItem>): (r: Result<CartResponse>)
    ensures r.Err? <==> exists k :: 0 <= k < |items| && items[k].productId !in products
    ensures r.Ok? ==> |r.value.items| == |items|
    ensures r.Err? ==> r.error == ResourceNotFound("Product not found")
    ensures r.Ok? ==> forall k :: 0 <= k < |items| ==>
              r.value.items[k] == CartItemResponse(items[k].productId, items[k].quantity,
                                                   products[items[k].productId].name, products[items[k].productId].price)
  {
    match LineViews(products, items)
    case Err(e) => Err(e)
    case Ok(lines) => Ok(CartResponse(lines))
  }

  /** toResponse: builds the response lines in a loop, failing on a line whose product is gone. */
  method ToResponse(store: Store, cart: Cart) returns (r: Result<CartResponse>)
    ensures r.Err? <==> exists k :: 0 <= k < |cart.items| && cart.items[k].productId !in store.products
    ensures r.Ok? ==> |r.value.items| == |cart.items|
    ensures r.Ok? ==> forall k :: 0 <= k < |cart.items| ==>
              r.value.items[k] == CartItemResponse(cart.items[k].productId, cart.items[k].quantity,
                                                   store.products[cart.items[k].productId].name,
                                                   store.products[cart.items[k].productId].price)
    ensures r == CartView(store.products, cart.items)
  {
    var lines: seq<CartItemResponse> := [];
    var i := 0;
    while i < |cart.items|
      invariant 0 <= i <= |cart.items|
      invariant |lines| == i
      invariant forall k :: 0 <= k < i ==> cart.items[k].productId in store.products
      invariant forall k :: 0 <= k < i ==>
                  lines[k] == CartItemResponse(cart.items[k].productId, cart.items[k].quantity,
                                               store.products[cart.items[k].productId].name,
                                               store.products[cart.items[k].productId].price)
    {
      var item := cart.items[i];
      if item.productId !in store.products {
        return Err(ResourceNotFound("Product not found"));
      }
      var p := store.products[item.productId];
      lines := lines + [CartItemResponse(item.productId, item.quantity, p.name, p.price)];
      i := i + 1;
    }
    r := Ok(CartResponse(lines));
    var expected := LineViews(store.products, cart.items);
    assert expected.Ok?;
    assert expected.value == lines;
  }

  // ---------------------------------------------------------------------------
  // The service calls, as functions of the store's contents

  /**
   * addItem: product, then stock against the requested quantity only (not the
   * merged total), then user; then the merged cart is saved and answered. A
   * line whose product has since disappeared fails the answer, after the save.
   */
  function AddItemSpec(s: Shop, email: string, productId: string, quantity: int): (r: (Result<CartResponse>, Shop))
    requires CartsKeyedByOwner(s.carts)
    ensures CartsKeyedByOwner(r.1.carts)
    ensures r.1.products == s.products && r.1.users == s.users && r.1.orders == s.orders && r.1.payments == s.payments
    ensures productId !in s.products ==> r == (Err(ResourceNotFound("Product not found")), s)
    ensures productId in s.products && quantity > s.products[productId].stock ==> r == (Err(BadRequest("Insufficient stock")), s)
    ensures productId in s.products && quantity <= s.products[productId].stock && email !in s.users ==>
              r == (Err(ResourceNotFound("User not found")), s)
    ensures productId in s.products && quantity <= s.products[productId].stock && email in s.users ==>
              var userId := s.users[email];
              var found := LookupCart(s.carts, userId, email).0;
              && userId in r.1.carts
              && r.1.carts[userId].items == MergeLine(found.items, productId, quantity)
              && (forall k :: k in s.carts && k != userId && k != email ==> k in r.1.carts && r.1.carts[k] == s.carts[k])
              && r.0 == CartView(s.products, r.1.carts[userId].items)
  {
    if productId !in s.products then (Err(ResourceNotFound("Product not found")), s)
    else if quantity > s.products[productId].stock then (Err(BadRequest("Insufficient stock")), s)
    else if email !in s.users then (Err(ResourceNotFound("User not found")), s)
    else
      var userId := s.users[email];
      var (cart, carts) := MigrateCart(s.carts, userId, email);
      var saved := cart.(items := MergeLine(cart.items, productId, quantity));
      (CartView(s.products, saved.items), s.(carts := carts[userId := saved]))
  }

  /**
   * updateQuantity: user, cart, then the product's line must exist; no check
   * on the quantity itself. A cart moved from the e-mail stays moved when the
   * line is missing.
   */
  function UpdateQuantitySpec(s: Shop, email: string, productId: string, quantity: int): (r: (Result<CartResponse>, Shop))
    requires CartsKeyedByOwner(s.carts)
    ensures CartsKeyedByOwner(r.1.carts)
    ensures r.1.products == s.products && r.1.users == s.users && r.1.orders == s.orders && r.1.payments == s.payments
    ensures email !in s.users ==> r == (Err(ResourceNotFound("User not found")), s)
    ensures email in s.users ==>
              var userId := s.users[email];
              var found := LookupCart(s.carts, userId, email).0;
              && (forall k :: k in s.carts && k != userId && k != email ==> k in r.1.carts && r.1.carts[k] == s.carts[k])
              && (SetQuantity(found.items, productId, quantity).None? ==>
                    r == (Err(ResourceNotFound("Item not found in cart")), s.(carts := MigrateCart(s.carts, userId, email).1)))
              && (SetQuantity(found.items, productId, quantity).Some? ==>
                    && userId in r.1.carts
                    && r.1.carts[userId].items == SetQuantity(found.items, productId, quantity).value
                    && r.0 == CartView(s.products, r.1.carts[userId].items))
  {
    if email !in s.users then (Err(ResourceNotFound("User not found")), s)
    else
      var userId := s.users[email];
      var (cart, carts) := MigrateCart(s.carts, userId, email);
      match SetQuantity(cart.items, productId, quantity)
      case None => (Err(ResourceNotFound("Item not found in cart")), s.(carts := carts))
      case Some(items) =>
        var saved := cart.(items := items);
        (CartView(s.products, items), s.(carts := carts[userId := saved]))
  }

  /** removeItem: user, cart, then every line for the product goes; an absent product is not an error. */
  function RemoveItemSpec(s: Shop, email: string, productId: string): (r: (Result<CartResponse>, Shop))
    requires CartsKeyedByOwner(s.carts)
    ensures CartsKeyedByOwner(r.1.carts)
    ensures r.1.products == s.products && r.1.users == s.users && r.1.orders == s.orders && r.1.payments == s.payments
    ensures email !in s.users ==> r == (Err(ResourceNotFound("User not found")), s)
    ensures email in s.users ==>
              var userId := s.users[email];
              var found := LookupCart(s.carts, userId, email).0;
              && userId in r.1.carts
              && r.1.carts[userId].items == RemoveLines(found.items, productId)
              && (forall k :: k in s.carts && k != userId && k != email ==> k in r.1.carts && r.1.carts[k] == s.carts[k])
              && r.0 == CartView(s.products, r.1.carts[userId].items)
  {
    if email !in s.users then (Err(ResourceNotFound("User not found")), s)
    else
      var userId := s.users[email];
      var (cart, carts) := MigrateCart(s.carts, userId, email);
      var saved := cart.(items := RemoveLines(cart.items, productId));
      (CartView(s.products, saved.items), s.(carts := carts[userId := saved]))
  }

  /** getCart: user, cart (moved if found under the e-mail, never created), response. */
  function GetCartSpec(s: Shop, email: string): (r: (Result<CartResponse>, Shop))
    requires CartsKeyedByOwner(s.carts)
    ensures CartsKeyedByOwner(r.1.carts)
    ensures r.1.products == s.products && r.1.users == s.users && r.1.orders == s.orders && r.1.payments == s.payments
    ensures email !in s.users ==> r == (Err(ResourceNotFound("User not found")), s)
    ensures email in s.users ==>
              var (cart, carts) := LookupCart(s.carts, s.users[email], email);
              r == (CartView(s.products, cart.items), s.(carts := carts))
  {
    if email !in s.users then (Err(ResourceNotFound("User not found")), s)
    else
      var (cart, carts) := LookupCart(s.carts, s.users[email], email);
      (CartView(s.products, cart.items), s.(carts := carts))
  }

  // ---------------------------------------------------------------------------
  // The service calls against the store

  method FindOrCreateCart(store: Store, userId: string, email: string) returns (cart: Cart)
    requires store.Valid()
    modifies store
    ensures store.Valid()
    ensures (cart, store.carts) == LookupCart(old(store.carts), userId, email)
    ensures store.State() == old(store.State()).(carts := store.carts)
  {
    if userId in store.carts {
      cart := store.carts[userId];
    } else if email in store.carts {
      cart := store.carts[email].(userId := userId);
      store.carts := (store.carts - {email})[userId := cart];
    } else {
      cart := Cart(userId, []);
    }
  }

  method FindOrMigrateCart(store: Store, userId: string, email: string) returns (cart: Cart)
    requires store.Valid()
    modifies store
    ensures store.Valid()
    ensures (cart, store.carts) == MigrateCart(old(store.carts), userId, email)
    ensures store.State() == old(store.State()).(carts := store.carts)
  {
    cart := FindOrCreateCart(store, userId, email);
    if cart.userId == email {
      cart := cart.(userId := userId);
      store.carts := store.carts[userId := cart];
    }
  }

  method AddItem(store: Store, email: string, productId: string, quantity: int) returns (r: Result<CartResponse>)
    requires store.Valid()
    modifies store
    ensures store.Valid()
    ensures (r, store.State()) == AddItemSpec(old(store.State()), email, productId, quantity)
  {
    if productId !in store.products {
      return Err(ResourceNotFound("Product not found"));
    }
    if quantity > store.products[productId].stock {
      return Err(BadRequest("Insufficient stock"));
    }
    if email !in store.users {
      return Err(ResourceNotFound("User not found"));
    }
    var userId := store.users[email];
    var cart := FindOrMigrateCart(store, userId, email);
    cart := cart.(items := MergeLine(cart.items, productId, quantity));
    store.carts := store.carts[userId := cart];
    r := ToResponse(store, cart);
  }

  method UpdateQuantity(store: Store, email: string, productId: string, quantity: int) returns (r: Result<CartResponse>)
    requires store.Valid()
    modifies store
    ensures store.Valid()
    ensures (r, store.State()) == UpdateQuantitySpec(old(store.State()), email, productId, quantity)
  {
    if email !in store.users {
      return Err(ResourceNotFound("User not found"));
    }
    var userId := store.users[email];
    var cart := FindOrMigrateCart(store, userId, email);
    var updated := SetQuantity(cart.items, productId, quantity);
    if updated.None? {
      return Err(ResourceNotFound("Item not found in cart"));
    }
    cart := cart.(items := updated.value);
    store.carts := store.carts[userId := cart];
    r := ToResponse(store, cart);
  }

  method RemoveItem(store: Store, email: string, productId: string) returns (r: Result<CartResponse>)
    requires store.Valid()
    modifies store
    ensures store.Valid()
    ensures (r, store.State()) == RemoveItemSpec(old(store.State()), email, productId)
  {
    if email !in store.users {
      return Err(ResourceNotFound("User not found"));
    }
    var userId := store.users[email];
    var cart := FindOrMigrateCart(store, userId, email);
    cart := cart.(items := RemoveLines(cart.items, productId));
    store.carts := store.carts[userId := cart];
    r := ToResponse(store, cart);
  }

  method GetCart(store: Store, email: string) returns (r: Result<CartResponse>)
    requires store.Valid()
    modifies store
    ensures store.Valid()
    ensures (r, store.State()) == GetCartSpec(old(store.State()), email)
  {
    if email !in store.users {
      return Err(ResourceNotFound("User not found"));
    }
    var cart := FindOrCreateCart(store, store.users[email], email);
    r := ToResponse(store, cart);
  }
}
