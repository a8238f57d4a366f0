/**
 * Orders: placing an order from the user's cart (stock reservation, order
 * record, payment intent, emptying the cart), overwriting an order's status,
 * and reading an order.
 *
 * Every write stays once issued: products whose stock was taken before a
 * later line fails keep the reduced stock, and an order saved before the
 * gateway fails stays saved. The order id the store generates and the
 * creation time are parameters; the confirmation e-mail is left out (its
 * failure is swallowed, so it never changes the outcome).
 */
module OrderService {
  import opened Wrappers
  import opened Domain
  import opened Repositories
  import opened Text
  import CartService
  import PaymentService
  import OrderMapper

  /**
   * One line of the reservation: the product must exist and have at least the
   * line's quantity in stock; its stock goes down by the quantity, and the
   * order item copies the product's current name and price.
   */
  function ReserveLine(products: map<string, Product>, line: CartItem): (r: Result<(map<string, Product>, OrderItem)>)
    ensures r.Ok? <==> line.productId in products && line.quantity <= products[line.productId].stock
    ensures r.Ok? ==>
              && r.value.0.Keys == products.Keys
              && r.value.0[line.productId].stock == products[line.productId].stock - line.quantity >= 0
              && r.value.1.productId == line.productId && r.value.1.quantity == line.quantity
  {
    if line.productId !in products then Err(ResourceNotFound("Product not found"))
    else
      var p := products[line.productId];
      if line.quantity > p.stock then Err(BadRequest("Insufficient stock for product: " + p.name))
      else Ok((products[line.productId := p.(stock := p.stock - line.quantity)],
               OrderItem(line.productId, p.name, line.quantity, p.price)))
  }

  /**
   * How far the reservation got: the catalogue and the items after the lines
   * it took, and the exception of the line that stopped it, if one did.
   */
  datatype Reservation = Reservation(products: map<string, Product>, items: seq<OrderItem>, failure: Option<Exception>)

  /**
   * The reservation of lines[i..], starting from the catalogue `products`
   * with `items` already built: every line reads the stock as the earlier
   * lines left it. The first failing line stops it.
   */
  function ReserveFrom(products: map<string, Product>, lines: seq<CartItem>, i: nat, items: seq<OrderItem>): (r: Reservation)
    requires i <= |lines|
    ensures |items| <= |r.items| <= |items| + |lines| - i && r.items[..|items|] == items
    ensures r.failure.None? <==> |r.items| == |items| + |lines| - i
    ensures r.products.Keys == products.Keys
    decreases |lines| - i
  {
    if i == |lines| then Reservation(products, items, None)
    else
      match ReserveLine(products, lines[i])
      case Err(e) => Reservation(products, items, Some(e))
      case Ok((next, item)) => ReserveFrom(next, lines, i + 1, items + [item])
  }

  /** The reservation of a whole cart's lines. */
  function Reserve(products: map<string, Product>, lines: seq<CartItem>): (r: Reservation)
    ensures |r.items| <= |lines|
    ensures r.failure.None? <==> |r.items| == |lines|
    ensures r.products.Keys == products.Keys
  {
    ReserveFrom(products, lines, 0, [])
  }

  /** Line k finds its product, with enough stock left after the earlier lines took theirs. */
  ghost predicate LineFits(products: map<string, Product>, lines: seq<CartItem>, k: nat)
    requires k < |lines|
  {
    var pid := lines[k].productId;
    pid in products && lines[k].quantity <= products[pid].stock - CartService.QuantityOf(lines[..k], pid)
  }

  /** The catalogue after the lines' quantities are taken from it; nothing else about a product changes. */
  ghost predicate StockTaken(before: map<string, Product>, after: map<string, Product>, lines: seq<CartItem>)
  {
    && after.Keys == before.Keys
    && forall pid :: pid in before ==>
         after[pid] == before[pid].(stock := before[pid].stock - CartService.QuantityOf(lines, pid))
  }

  /** The order item for line k: the line's product and quantity with the catalogue's name and price. */
  ghost predicate ItemMatchesLine(products: map<string, Product>, line: CartItem, item: OrderItem)
  {
    && line.productId in products
    && item == OrderItem(line.productId, products[line.productId].name, line.quantity, products[line.productId].price)
  }

  lemma QuantityOfSnoc(lines: seq<CartItem>, k: nat, pid: string)
    requires k < |lines|
    ensures CartService.QuantityOf(lines[..k + 1], pid)
         == CartService.QuantityOf(lines[..k], pid) + (if lines[k].productId == pid then lines[k].quantity else 0)
  {
    assert lines[..k + 1] == lines[..k] + [lines[k]];
    CartService.QuantityOfAppend(lines[..k], [lines[k]], pid);
    assert [lines[k]][1..] == [];
  }

  /**
   * One step of the reservation, when lines[..i] have been taken from
   * `original`: line i is reserved exactly when it fits; then lines[..i + 1]
   * have been taken, its product's stock is not negative, no other product
   * changes, and its item matches the line.
   */
  lemma ReserveLineStep(original: map<string, Product>, current: map<string, Product>, lines: seq<CartItem>, i: nat)
    requires i < |lines| && StockTaken(original, current, lines[..i])
    ensures ReserveLine(current, lines[i]).Ok? <==> LineFits(original, lines, i)
    ensures ReserveLine(current, lines[i]).Ok? ==>
              var (next, item) := ReserveLine(current, lines[i]).value;
              && StockTaken(original, next, lines[..i + 1])
              && lines[i].productId in next && next[lines[i].productId].stock >= 0
              && (forall q :: q in current && q != lines[i].productId ==> q in next && next[q] == current[q])
              && ItemMatchesLine(original, lines[i], item)
  {
    var pid := lines[i].productId;
    if pid in current {
      assert current[pid].stock == original[pid].stock - CartService.QuantityOf(lines[..i], pid);
    }
    if ReserveLine(current, lines[i]).Ok? {
      var next := ReserveLine(current, lines[i]).value.0;
      forall q | q in original
        ensures next[q] == original[q].(stock := original[q].stock - CartService.QuantityOf(lines[..i + 1], q))
      {
        QuantityOfSnoc(lines, i, q);
      }
    }
  }

  /** A line that cannot be reserved reports a missing product or too little stock, naming the product. */
  lemma ReserveLineErrors(products: map<string, Product>, line: CartItem)
    ensures var r := ReserveLine(products, line);
      r.Err? ==> r.error == ResourceNotFound("Product not found")
                 || (line.productId in products
                     && r.error == BadRequest("Insufficient stock for product: " + products[line.productId].name))
  {
  }

  /**
   * The reservation from line i on, when lines[..i] have been taken from
   * `original` and their items built: it takes the following lines while they
   * fit and stops at the first that does not. The lines taken have their
   * quantities subtracted, leave their products' stock non-negative, and each
   * gets its matching item.
   */
  lemma {:induction false} ReserveFromEffect(original: map<string, Product>, current: map<string, Product>,
                                             lines: seq<CartItem>, i: nat, items: seq<OrderItem>)
    requires i <= |lines| && |items| == i
    requires StockTaken(original, current, lines[..i])
    requires forall k :: 0 <= k < i ==> LineFits(original, lines, k) && ItemMatchesLine(original, lines[k], items[k])
    requires forall k :: 0 <= k < i ==> lines[k].productId in current && current[lines[k].productId].stock >= 0
    ensures var r := ReserveFrom(current, lines, i, items);
      && i <= |r.items| <= |lines|
      && StockTaken(original, r.products, lines[..|r.items|])
      && (forall k :: 0 <= k < |r.items| ==> LineFits(original, lines, k) && ItemMatchesLine(original, lines[k], r.items[k]))
      && (forall k :: 0 <= k < |r.items| ==> lines[k].productId in r.products && r.products[lines[k].productId].stock >= 0)
      && (r.failure.None? <==> |r.items| == |lines|)
      && (r.failure.Some? ==> !LineFits(original, lines, |r.items|)
                              && ReserveLine(r.products, lines[|r.items|]) == Err(r.failure.value))
    decreases |lines| - i
  {
    if i < |lines| {
      ReserveLineStep(original, current, lines, i);
      var step := ReserveLine(current, lines[i]);
      if step.Ok? {
        var (next, item) := step.value;
        var items' := items + [item];
        assert forall k :: 0 <= k < i ==> items'[k] == items[k];
        ReserveFromEffect(original, next, lines, i + 1, items');
      }
    }
  }

  /**
   * The reservation of a whole cart takes the lines in order while they fit
   * the stock the earlier lines left and stops at the first that does not; so
   * it completes exactly when every line fits. The lines taken have their
   * quantities subtracted from the stock, no product they name is left below
   * zero, and each has one order item, in line order, priced from the catalogue.
   */
  lemma ReserveEffect(products: map<string, Product>, lines: seq<CartItem>)
    ensures var r := Reserve(products, lines);
      && |r.items| <= |lines|
      && (r.failure.None? <==> forall k :: 0 <= k < |lines| ==> LineFits(products, lines, k))
      && (r.failure.None? <==> |r.items| == |lines|)
      && (r.failure.Some? ==> !LineFits(products, lines, |r.items|))
      && (r.failure.Some? ==>
            var pid := lines[|r.items|].productId;
            && (pid !in products ==> r.failure.value == ResourceNotFound("Product not found"))
            && (pid in products ==> r.failure.value == BadRequest("Insufficient stock for product: " + products[pid].name)))
      && StockTaken(products, r.products, lines[..|r.items|])
      && (forall k :: 0 <= k < |r.items| ==> lines[k].productId in r.products && r.products[lines[k].productId].stock >= 0)
      && (forall k :: 0 <= k < |r.items| ==> ItemMatchesLine(products, lines[k], r.items[k]))
  {
    assert lines[..0] == [];
    forall q | q in products
      ensures products[q] == products[q].(stock := products[q].stock - CartService.QuantityOf(lines[..0], q))
    {
    }
    assert StockTaken(products, products, lines[..0]);
    ReserveFromEffect(products, products, lines, 0, []);
    var r := Reserve(products, lines);
    if r.failure.Some? {
      ReserveLineErrors(r.products, lines[|r.items|]);
    }
  }

  /**
   * For a cart naming each product at most once (as addItem keeps it), the
   * reservation completes exactly when every product exists with at least the
   * line's quantity in stock, and then each product's stock drops by its line's quantity.
   */
  lemma ReserveDistinctLines(products: map<string, Product>, lines: seq<CartItem>)
    requires CartService.UniqueProducts(lines)
    ensures var r := Reserve(products, lines);
      && (r.failure.None? <==> forall k :: 0 <= k < |lines| ==>
                                 lines[k].productId in products && lines[k].quantity <= products[lines[k].productId].stock)
      && (r.failure.None? ==> forall k :: 0 <= k < |lines| ==>
                                lines[k].productId in r.products && lines[k].productId in products &&
                                r.products[lines[k].productId].stock == products[lines[k].productId].stock - lines[k].quantity)
  {
    ReserveEffect(products, lines);
    forall k | 0 <= k < |lines|
      ensures CartService.QuantityOf(lines[..k], lines[k].productId) == 0
      ensures CartService.QuantityOf(lines, lines[k].productId) == lines[k].quantity
    {
      CartService.AbsentQuantity(lines[..k], lines[k].productId);
      CartService.UniqueQuantity(lines, k, lines[k].productId);
    }
    assert lines[..|lines|] == lines;
  }

  /** The order total: each item's price times its quantity, summed. */
  lemma {:induction false} TotalOfMatchedItems(products: map<string, Product>, lines: seq<CartItem>, items: seq<OrderItem>)
    requires |items| == |lines|
    requires forall k :: 0 <= k < |lines| ==> lines[k].productId in products
    requires forall k :: 0 <= k < |lines| ==> ItemMatchesLine(products, lines[k], items[k])
    ensures ItemsTotal(items) == LinesTotal(products, lines)
  {
    if lines != [] {
      TotalOfMatchedItems(products, lines[1..], items[1..]);
    }
  }

  /** A cart's value at catalogue prices (every line's product present). */
  function LinesTotal(products: map<string, Product>, lines: seq<CartItem>): int
    requires forall k :: 0 <= k < |lines| ==> lines[k].productId in products
  {
    if lines == [] then 0
    else products[lines[0].productId].price * lines[0].quantity + LinesTotal(products, lines[1..])
  }

  /**
   * placeOrder for the cart stored under `userId`. A missing or empty cart
   * changes nothing. A line that does not fit stops the call with the stock
   * of the lines before it already taken. A gateway failure stops it with the
   * order saved as CREATED without a payment id. Otherwise the order gets the
   * provider order id as payment id, its payment is recorded and the cart is
   * emptied.
   */
  function PlaceOrderSpec(s: Shop, userId: string, orderId: string, now: int, reply: PaymentService.GatewayReply)
    : (r: (Result<OrderMapper.OrderResponse>, Shop))
    requires orderId !in s.orders
    ensures r.1.users == s.users
    ensures userId !in s.carts ==> r == (Err(ResourceNotFound("Cart not found")), s)
    ensures userId in s.carts && s.carts[userId].items == [] ==> r == (Err(BadRequest("Cart is empty")), s)
    ensures r.0.Err? ==> r.1.carts == s.carts && r.1.payments == s.payments
    ensures userId in s.carts && s.carts[userId].items != [] ==>
              var res := Reserve(s.products, s.carts[userId].items);
              var order := Order(userId, res.items, ItemsTotal(res.items), CREATED, None, now);
              && r.1.products == res.products
              && (res.failure.Some? ==> r == (Err(res.failure.value), s.(products := res.products)))
              && (res.failure.None? && reply.GatewayFailed? ==>
                    && r.0 == Err(BadRequest("Failed to create Razorpay order: " + reply.message))
                    && r.1.orders == s.orders[orderId := order])
              && (res.failure.None? && reply.Created? ==>
                    var placed := order.(paymentId := Some(reply.providerOrderId));
                    && r.0 == Ok(OrderMapper.ToResponse(orderId, placed))
                    && r.1.orders == s.orders[orderId := placed]
                    && r.1.carts == s.carts[userId := s.carts[userId].(items := [])]
                    && r.1.payments == s.payments + [PaymentService.NewPayment(orderId, reply.providerOrderId, order.total)])
  {
    if userId !in s.carts then (Err(ResourceNotFound("Cart not found")), s)
    else
      var cart := s.carts[userId];
      if cart.items == [] then (Err(BadRequest("Cart is empty")), s)
      else
        var res := Reserve(s.products, cart.items);
        if res.failure.Some? then (Err(res.failure.value), s.(products := res.products))
        else
          var total := ItemsTotal(res.items);
          var order := Order(userId, res.items, total, CREATED, None, now);
          var saved := s.(products := res.products, orders := s.orders[orderId := order]);
          match PaymentService.CreatePaymentIntentSpec(saved, orderId, total, reply)
          case (Err(e), failed) => (Err(e), failed)
          case (Ok(providerOrderId), paid) =>
            var placed := order.(paymentId := Some(providerOrderId));
            (Ok(OrderMapper.ToResponse(orderId, placed)),
             paid.(orders := paid.orders[orderId := placed], carts := paid.carts[userId := cart.(items := [])]))
  }

  /**
   * An order is placed exactly when the user has a non-empty cart whose lines
   * all fit the stock and the gateway creates the provider order. The stored
   * order belongs to the user, is CREATED with the provider order id as
   * payment id, its items follow the cart's lines one for one at catalogue
   * name and price, and its total is the cart's value at catalogue prices;
   * each product's stock has dropped by its total quantity in the cart, no
   * product a line names is left with negative stock, and the cart is empty.
   */
  lemma PlaceOrderEffect(s: Shop, userId: string, orderId: string, now: int, reply: PaymentService.GatewayReply)
    requires orderId !in s.orders
    ensures var r := PlaceOrderSpec(s, userId, orderId, now, reply);
      && (r.0.Ok? <==> userId in s.carts && s.carts[userId].items != [] && reply.Created?
                       && forall k :: 0 <= k < |s.carts[userId].items| ==> LineFits(s.products, s.carts[userId].items, k))
      && (r.0.Ok? ==>
            var lines := s.carts[userId].items;
            var order := r.1.orders[orderId];
            && order.userId == userId && order.status == CREATED && order.paymentId == Some(reply.providerOrderId)
            && |order.items| == |lines|
            && (forall k :: 0 <= k < |lines| ==> ItemMatchesLine(s.products, lines[k], order.items[k]))
            && order.total == LinesTotal(s.products, lines)
            && StockTaken(s.products, r.1.products, lines)
            && (forall k :: 0 <= k < |lines| ==> lines[k].productId in r.1.products && r.1.products[lines[k].productId].stock >= 0)
            && r.1.carts[userId].items == [])
  {
    if userId in s.carts {
      var lines := s.carts[userId].items;
      ReserveEffect(s.products, lines);
      var res := Reserve(s.products, lines);
      if res.failure.None? {
        assert lines[..|res.items|] == lines;
        TotalOfMatchedItems(s.products, lines, res.items);
      }
    }
  }

  /**
   * A failed placement never empties the cart or records a payment. Either no
   * order was created and the stock of some leading lines has been taken,
   * the next line (if any) being one that does not fit; or the gateway failed
   * after the order was saved as CREATED without a payment id and every
   * line's stock was taken.
   */
  lemma PlaceOrderFailureEffect(s: Shop, userId: string, orderId: string, now: int, reply: PaymentService.GatewayReply)
    requires orderId !in s.orders
    requires userId in s.carts
    ensures var r := PlaceOrderSpec(s, userId, orderId, now, reply);
      var lines := s.carts[userId].items;
      r.0.Err? ==>
        && r.1.carts == s.carts && r.1.payments == s.payments
        && ((r.1.orders == s.orders
             && exists n :: 0 <= n <= |lines| && StockTaken(s.products, r.1.products, lines[..n])
                            && (n < |lines| ==> !LineFits(s.products, lines, n)))
            || (reply.GatewayFailed?
                && orderId in r.1.orders && r.1.orders[orderId].status == CREATED && r.1.orders[orderId].paymentId.None?
                && StockTaken(s.products, r.1.products, lines)))
  {
    var lines := s.carts[userId].items;
    ReserveEffect(s.products, lines);
    var res := Reserve(s.products, lines);
    assert lines[..0] == [];
    forall q | q in s.products
      ensures s.products[q] == s.products[q].(stock := s.products[q].stock - CartService.QuantityOf(lines[..0], q))
    {
    }
    assert StockTaken(s.products, s.products, lines[..0]);
    if lines != [] && res.failure.None? {
      assert lines[..|res.items|] == lines;
    }
  }

  /**
   * A cart of two units of a product priced 10 with exactly two in stock:
   * the order is placed with total 20, the stock drops to 0 and the cart is emptied.
   */
  lemma PlaceOrderExactStock(s: Shop, userId: string, orderId: string, now: int, providerOrderId: string, pid: string)
    requires orderId !in s.orders
    requires userId in s.carts && s.carts[userId].items == [CartItem(pid, 2)]
    requires pid in s.products && s.products[pid].price == 10 && s.products[pid].stock == 2
    ensures var r := PlaceOrderSpec(s, userId, orderId, now, PaymentService.Created(providerOrderId));
      && r.0.Ok? && r.0.value.total == 20
      && r.1.orders[orderId].total == 20 && r.1.orders[orderId].status == CREATED
      && pid in r.1.products && r.1.products[pid].stock == 0
      && r.1.carts[userId].items == []
  {
    var lines := s.carts[userId].items;
    assert lines[..0] == [];
    assert LineFits(s.products, lines, 0);
    PlaceOrderEffect(s, userId, orderId, now, PaymentService.Created(providerOrderId));
    assert lines[1..] == [];
    assert CartService.QuantityOf(lines, pid) == 2;
  }

  /**
   * A cart of three units of a product with two in stock: placement fails
   * with BadRequest naming the product, and no stock, order, cart or payment changes.
   */
  lemma PlaceOrderShortStock(s: Shop, userId: string, orderId: string, now: int,
                             reply: PaymentService.GatewayReply, pid: string)
    requires orderId !in s.orders
    requires userId in s.carts && s.carts[userId].items == [CartItem(pid, 3)]
    requires pid in s.products && s.products[pid].stock == 2
    ensures PlaceOrderSpec(s, userId, orderId, now, reply)
         == (Err(BadRequest("Insufficient stock for product: " + s.products[pid].name)), s)
  {
    assert Reserve(s.products, s.carts[userId].items).products == s.products;
  }

  /**
   * Nothing undoes the stock taken by earlier lines: a cart of one unit of a
   * product with five in stock and then three of one with two in stock fails
   * on the second line, and the first product is left with four.
   */
  lemma PlaceOrderKeepsEarlierReservations(s: Shop, userId: string, orderId: string, now: int,
                                           reply: PaymentService.GatewayReply, a: string, b: string)
    requires orderId !in s.orders
    requires a != b
    requires userId in s.carts && s.carts[userId].items == [CartItem(a, 1), CartItem(b, 3)]
    requires a in s.products && s.products[a].stock == 5
    requires b in s.products && s.products[b].stock == 2
    ensures var r := PlaceOrderSpec(s, userId, orderId, now, reply);
      && r.0 == Err(BadRequest("Insufficient stock for product: " + s.products[b].name))
      && a in r.1.products && r.1.products[a].stock == 4
      && b in r.1.products && r.1.products[b].stock == 2
      && r.1.orders == s.orders && r.1.carts == s.carts
  {
    var lines := s.carts[userId].items;
    var first := s.products[a := s.products[a].(stock := 4)];
    var item := OrderItem(a, s.products[a].name, 1, s.products[a].price);
    var failure := BadRequest("Insufficient stock for product: " + s.products[b].name);
    assert ReserveLine(s.products, lines[0]) == Ok((first, item));
    assert ReserveLine(first, lines[1]) == Err(failure);
    assert ReserveFrom(first, lines, 1, [item]) == Reservation(first, [item], Some(failure));
    var none: seq<OrderItem> := [];
    assert none + [item] == [item];
    assert ReserveFrom(s.products, lines, 0, none) == ReserveFrom(first, lines, 1, none + [item]);
  }

  /** overwrites the status, whatever it was: no transition is refused. */
  function UpdateStatusSpec(s: Shop, orderId: string, newStatus: OrderStatus): (r: (Result<OrderMapper.OrderResponse>, Shop))
    ensures r.1.products == s.products && r.1.users == s.users && r.1.carts == s.carts && r.1.payments == s.payments
    ensures orderId !in s.orders ==> r == (Err(ResourceNotFound("Order not found")), s)
    ensures orderId in s.orders ==>
              && r.1.orders.Keys == s.orders.Keys
              && r.1.orders[orderId] == s.orders[orderId].(status := newStatus)
              && (forall o :: o in s.orders && o != orderId ==> r.1.orders[o] == s.orders[o])
              && r.0 == Ok(OrderMapper.ToResponse(orderId, r.1.orders[orderId]))
  {
    if orderId !in s.orders then (Err(ResourceNotFound("Order not found")), s)
    else
      var order := s.orders[orderId].(status := newStatus);
      (Ok(OrderMapper.ToResponse(orderId, order)), s.(orders := s.orders[orderId := order]))
  }

  /** Two status updates leave the second status, as if the first had not happened. */
  lemma UpdateStatusLastWins(s: Shop, orderId: string, first: OrderStatus, second: OrderStatus)
    ensures UpdateStatusSpec(UpdateStatusSpec(s, orderId, first).1, orderId, second) == UpdateStatusSpec(s, orderId, second)
  {
    if orderId in s.orders {
      var once := UpdateStatusSpec(s, orderId, first).1;
      assert once.orders[orderId].(status := second) == s.orders[orderId].(status := second);
      assert once.orders[orderId := once.orders[orderId].(status := second)] == s.orders[orderId := s.orders[orderId].(status := second)];
    }
  }

  // ---------------------------------------------------------------------------
  // The service calls against the store

  /**
   * The reservation loop of placeOrder: each line's product is read, checked
   * and saved with the reduced stock before the next line is read; the first
   * line that does not fit stops it, and the products saved so far stay saved.
   */
  method ReserveStock(store: Store, lines: seq<CartItem>) returns (items: seq<OrderItem>, failure: Option<Exception>)
    modifies store
    ensures store.State() == old(store.State()).(products := store.products)
    ensures Reservation(store.products, items, failure) == Reserve(old(store.products), lines)
  {
    items := [];
    var i := 0;
    while i < |lines|
      invariant 0 <= i <= |lines|
      invariant store.State() == old(store.State()).(products := store.products)
      invariant Reserve(old(store.products), lines) == ReserveFrom(store.products, lines, i, items)
    {
      var line := lines[i];
      if line.productId !in store.products {
        return items, Some(ResourceNotFound("Product not found"));
      }
      var p := store.products[line.productId];
      if line.quantity > p.stock {
        return items, Some(BadRequest("Insufficient stock for product: " + p.name));
      }
      items := items + [OrderItem(line.productId, p.name, line.quantity, p.price)];
      store.products := store.products[line.productId := p.(stock := p.stock - line.quantity)];
      i := i + 1;
    }
    failure := None;
  }

  method PlaceOrder(store: Store, userId: string, orderId: string, now: int, reply: PaymentService.GatewayReply)
    returns (r: Result<OrderMapper.OrderResponse>)
    requires store.Valid()
    requires orderId !in store.orders
    modifies store
    ensures store.Valid()
    ensures (r, store.State()) == PlaceOrderSpec(old(store.State()), userId, orderId, now, reply)
  {
    if userId !in store.carts {
      return Err(ResourceNotFound("Cart not found"));
    }
    var cart := store.carts[userId];
    if cart.items == [] {
      return Err(BadRequest("Cart is empty"));
    }
    var items, failure := ReserveStock(store, cart.items);
    if failure.Some? {
      return Err(failure.value);
    }
    var total := ItemsTotal(items);
    var order := Order(userId, items, total, CREATED, None, now);
    store.orders := store.orders[orderId := order];
    var intent := PaymentService.CreatePaymentIntent(store, orderId, total, reply);
    if intent.Err? {
      return Err(intent.error);
    }
    order := order.(paymentId := Some(intent.value));
    store.orders := store.orders[orderId := order];
    store.carts := store.carts[userId := cart.(items := [])];
    r := Ok(OrderMapper.ToResponse(orderId, order));
  }

  method UpdateStatus(store: Store, orderId: string, newStatus: OrderStatus) returns (r: Result<OrderMapper.OrderResponse>)
    modifies store
    ensures (r, store.State()) == UpdateStatusSpec(old(store.State()), orderId, newStatus)
  {
    if orderId !in store.orders {
      return Err(ResourceNotFound("Order not found"));
    }
    var order := store.orders[orderId].(status := newStatus);
    store.orders := store.orders[orderId := order];
    r := Ok(OrderMapper.ToResponse(orderId, order));
  }

  /** The stored order as a response, or NotFound for an unknown id. */
  method GetById(store: Store, id: string) returns (r: Result<OrderMapper.OrderResponse>)
    ensures r.Err? <==> id !in store.orders
    ensures r.Err? ==> r.error == ResourceNotFound("Order not found")
    ensures r.Ok? ==> r.value == OrderMapper.ToResponse(id, store.orders[id])
    ensures r.Ok? ==> r.value.id == id && r.value.status == store.orders[id].status && r.value.total == store.orders[id].total
    ensures r.Ok? ==> r.value.paymentId == store.orders[id].paymentId && r.value.createdAt == store.orders[id].createdAt
    ensures r.Ok? ==> |r.value.items| == |store.orders[id].items|
    ensures r.Ok? ==> forall k :: 0 <= k < |r.value.items| ==> OrderMapper.FromItemResponse(r.value.items[k]) == store.orders[id].items[k]
  {
    if id !in store.orders {
      return Err(ResourceNotFound("Order not found"));
    }
    r := Ok(OrderMapper.ToResponse(id, store.orders[id]));
  }
}
