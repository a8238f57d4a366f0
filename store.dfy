/**
 * The document store behind the repositories (products, users, carts,
 * orders, payments). Services read and reassign its collections.
 */
module Repositories {
  import opened Wrappers
  import opened Domain

  class Store {
    var products: map<string, Product>
    /** e-mail -> user id, the part of the user repository the services use */
    var users: map<string, string>
    /** owner key -> cart */
    var carts: map<string, Cart>
    var orders: map<string, Order>
    var payments: seq<Payment>

    ghost predicate Valid()
      reads this
    {
      CartsKeyedByOwner(carts)
    }

    /** The current contents of every collection. */
    function State(): Shop
      reads this
    {
      Shop(products, users, carts, orders, payments)
    }

    constructor (products: map<string, Product>, users: map<string, string>)
      ensures Valid()
      ensures State() == Shop(products, users, map[], map[], [])
    {
      this.products := products;
      this.users := users;
      this.carts := map[];
      this.orders := map[];
      this.payments := [];
    }
  }
}
