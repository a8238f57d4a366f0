/**
 * The shop's records. Document ids generated by the store are the keys of the
 * maps in `Shop`, so the records themselves do not repeat them. Prices,
 * totals and amounts are integers in minor currency units.
 */
module Domain {
  import opened Wrappers

  /** A catalogue entry. */
  datatype Product = Product(
    name: string,
    description: string,
    price: int,
    stock: int,
    category: string,
    imageUrl: Option<string>)

  /** One cart line. Nothing forces the quantity to be positive. */
  datatype CartItem = CartItem(productId: string, quantity: int)

  /** A cart: its owner key and its ordered lines. */
  datatype Cart = Cart(userId: string, items: seq<CartItem>)

  /** A line of an order, with name and price copied from the product. */
  datatype OrderItem = OrderItem(productId: string, name: string, quantity: int, price: int)

  /** The order states the services write. */
  datatype OrderStatus = CREATED | PAID | CANCELLED

  datatype Order = Order(
    userId: string,
    items: seq<OrderItem>,
    total: int,
    status: OrderStatus,
    paymentId: Option<string>,
    createdAt: int)

  /** A payment record; `status` is a free string ("CREATED", "PAID", or whatever a webhook sent). */
  datatype Payment = Payment(
    orderId: string,
    provider: string,
    providerOrderId: string,
    providerPaymentId: string,
    providerSignature: Option<string>,
    status: string,
    amount: int)

  /**
   * A snapshot of the store: products and orders by id, user ids by e-mail,
   * carts by owner key, payments in insertion order.
   */
  datatype Shop = Shop(
    products: map<string, Product>,
    users: map<string, string>,
    carts: map<string, Cart>,
    orders: map<string, Order>,
    payments: seq<Payment>)

  /** Every cart is stored under the key it names as its owner. */
  ghost predicate CartsKeyedByOwner(carts: map<string, Cart>)
  {
    forall k :: k in carts ==> carts[k].userId == k
  }

  /** Price times quantity summed over order items. */
  function ItemsTotal(items: seq<OrderItem>): int
  {
    if items == [] then 0 else items[0].price * items[0].quantity + ItemsTotal(items[1..])
  }

  lemma {:induction false} ItemsTotalAppend(a: seq<OrderItem>, b: seq<OrderItem>)
    ensures ItemsTotal(a + b) == ItemsTotal(a) + ItemsTotal(b)
  {
    if a == [] {
      assert a + b == b;
    } else {
      assert (a + b)[1..] == a[1..] + b;
      ItemsTotalAppend(a[1..], b);
    }
  }
}
