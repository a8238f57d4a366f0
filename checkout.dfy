/**
 * How a buyer's request reaches placeOrder. The order endpoint hands the
 * service the authenticated principal's name, which is the buyer's e-mail,
 * as the cart owner key; the cart operations resolve the e-mail to the
 * user id and keep the cart under that id.
 */
module Checkout {
  import opened Wrappers
  import opened Domain
  import CartService
  import OrderService
  import PaymentService
  import OrderMapper

  /** placeOrder as the order endpoint calls it: the cart is looked up under the e-mail. */
  function PlaceOrderAsRouted(s: Shop, email: string, orderId: string, now: int, reply: PaymentService.GatewayReply)
    : (r: (Result<OrderMapper.OrderResponse>, Shop))
    requires orderId !in s.orders
    ensures email !in s.carts ==> r == (Err(ResourceNotFound("Cart not found")), s)
  {
    OrderService.PlaceOrderSpec(s, email, orderId, now, reply)
  }

  /**
   * placeOrder for the buyer with this e-mail, with the owner key resolved
   * the way the cart operations resolve it: an unknown e-mail fails as they
   * do, and otherwise the cart is looked up under the user id.
   */
  function PlaceOrderForBuyer(s: Shop, email: string, orderId: string, now: int, reply: PaymentService.GatewayReply)
    : (r: (Result<OrderMapper.OrderResponse>, Shop))
    requires orderId !in s.orders
    ensures email !in s.users ==> r == (Err(ResourceNotFound("User not found")), s)
    ensures r.1.users == s.users
  {
    if email !in s.users then (Err(ResourceNotFound("User not found")), s)
    else OrderService.PlaceOrderSpec(s, s.users[email], orderId, now, reply)
  }

  /**
   * A buyer whose user id is not their e-mail, and who has no cart left
   * under the e-mail, adds an item: the cart saved under the user id is not
   * empty, yet placing the order as routed finds no cart at all.
   */
  lemma AddedCartNotFoundAsRouted(s: Shop, email: string, productId: string, quantity: int,
                                  orderId: string, now: int, reply: PaymentService.GatewayReply)
    requires CartsKeyedByOwner(s.carts)
    requires email in s.users && s.users[email] != email && email !in s.carts
    requires productId in s.products && quantity <= s.products[productId].stock
    requires orderId !in s.orders
    ensures var after := CartService.AddItemSpec(s, email, productId, quantity).1;
      && s.users[email] in after.carts && after.carts[s.users[email]].items != []
      && orderId !in after.orders
      && PlaceOrderAsRouted(after, email, orderId, now, reply).0 == Err(ResourceNotFound("Cart not found"))
  {
    var userId := s.users[email];
    var found := CartService.LookupCart(s.carts, userId, email).0;
    CartService.MergeLineEffect(found.items, productId, quantity);
  }

  /**
   * With the owner key resolved, the order is placed from the cart the buyer
   * just added to: it is never missing or empty, and the placement succeeds
   * exactly when every line fits the stock and the gateway creates the
   * provider order.
   */
  lemma AddedCartFoundForBuyer(s: Shop, email: string, productId: string, quantity: int,
                               orderId: string, now: int, reply: PaymentService.GatewayReply)
    requires CartsKeyedByOwner(s.carts)
    requires email in s.users
    requires productId in s.products && quantity <= s.products[productId].stock
    requires orderId !in s.orders
    ensures var after := CartService.AddItemSpec(s, email, productId, quantity).1;
      var lines := after.carts[s.users[email]].items;
      var r := PlaceOrderForBuyer(after, email, orderId, now, reply);
      && lines != []
      && r.0 != Err(ResourceNotFound("Cart not found")) && r.0 != Err(BadRequest("Cart is empty"))
      && (r.0.Ok? <==> reply.Created? && forall k :: 0 <= k < |lines| ==> OrderService.LineFits(after.products, lines, k))
  {
    var userId := s.users[email];
    var after := CartService.AddItemSpec(s, email, productId, quantity).1;
    var found := CartService.LookupCart(s.carts, userId, email).0;
    CartService.MergeLineEffect(found.items, productId, quantity);
    OrderService.PlaceOrderEffect(after, userId, orderId, now, reply);
    var lines := after.carts[userId].items;
    var r := PlaceOrderForBuyer(after, email, orderId, now, reply);
    if r.0.Err? {
      var res := OrderService.Reserve(after.products, lines);
      OrderService.ReserveEffect(after.products, lines);
      if res.failure.None? && reply.GatewayFailed? {
        var message := "Failed to create Razorpay order: " + reply.message;
        assert message[0] == 'F';
      }
    }
  }
}
