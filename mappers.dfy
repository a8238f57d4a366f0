/** Field-for-field conversion between product requests, product records and product responses. */
module ProductMapper {
  import opened Wrappers
  import opened Domain

  /** The validated fields of a create or update request; the uploaded image arrives separately as a URL. */
  datatype ProductRequest = ProductRequest(
    name: string,
    description: string,
    price: int,
    stock: int,
    category: string)

  datatype ProductResponse = ProductResponse(
    id: string,
    name: string,
    description: string,
    price: int,
    stock: int,
    category: string,
    imageUrl: Option<string>)

  /**
   * A new product from a request and the stored image's URL (absent when
   * nothing was uploaded): every request field is copied and the product
   * stores exactly the given image URL.
   */
  function ToEntity(request: ProductRequest, imageUrl: Option<string>): (r: Product)
    ensures RequestOf(r) == request
    ensures r.imageUrl == imageUrl
  {
    Product(request.name, request.description, request.price, request.stock, request.category, imageUrl)
  }

  /** The request fields overwrite the product's; the image URL is replaced only when a new one is given. */
  function UpdateEntity(product: Product, request: ProductRequest, imageUrl: Option<string>): (r: Product)
    ensures RequestOf(r) == request
    ensures imageUrl.Some? ==> r.imageUrl == imageUrl
    ensures imageUrl.None? ==> r.imageUrl == product.imageUrl
  {
    var p := product.(name := request.name, description := request.description, price := request.price,
                      stock := request.stock, category := request.category);
    if imageUrl.Some? then p.(imageUrl := imageUrl) else p
  }

  /** The response for the product stored under `id`; it loses nothing: the id and every field come back from it. */
  function ToResponse(id: string, product: Product): (r: ProductResponse)
    ensures FromResponse(r) == (id, product)
  {
    ProductResponse(id, product.name, product.description, product.price, product.stock,
                    product.category, product.imageUrl)
  }

  /** The request a product's fields would have come from. */
  function RequestOf(product: Product): ProductRequest
  {
    ProductRequest(product.name, product.description, product.price, product.stock, product.category)
  }

  /** The id and product a response was made from. */
  function FromResponse(r: ProductResponse): (string, Product)
  {
    (r.id, Product(r.name, r.description, r.price, r.stock, r.category, r.imageUrl))
  }

  /**
   * Updating gives the product that creating from the same request would,
   * except that a missing new image keeps the old URL; so the old product's
   * other fields never survive an update, and updating twice changes nothing more.
   */
  lemma UpdateIsCreateKeepingImage(product: Product, request: ProductRequest, imageUrl: Option<string>)
    ensures UpdateEntity(product, request, imageUrl)
         == ToEntity(request, if imageUrl.Some? then imageUrl else product.imageUrl)
    ensures UpdateEntity(UpdateEntity(product, request, imageUrl), request, imageUrl)
         == UpdateEntity(product, request, imageUrl)
  {
  }
}

/** Conversion of stored orders to responses. */
module OrderMapper {
  import opened Wrappers
  import opened Domain

  datatype OrderItemResponse = OrderItemResponse(productId: string, name: string, quantity: int, price: int)

  datatype OrderResponse = OrderResponse(
    id: string,
    items: seq<OrderItemResponse>,
    total: int,
    status: OrderStatus,
    paymentId: Option<string>,
    createdAt: int)

  /** An item's response, from which the item comes back unchanged. */
  function ToItemResponse(item: OrderItem): (r: OrderItemResponse)
    ensures FromItemResponse(r) == item
  {
    OrderItemResponse(item.productId, item.name, item.quantity, item.price)
  }

  /** The item responses, one per item, in order (the stream `map` over the items). */
  function ToItemResponses(items: seq<OrderItem>): (r: seq<OrderItemResponse>)
    ensures |r| == |items|
    ensures forall k :: 0 <= k < |items| ==> r[k] == ToItemResponse(items[k])
  {
    if items == [] then [] else [ToItemResponse(items[0])] + ToItemResponses(items[1..])
  }

  /**
   * The response for the order stored under `id`; the order's owner is not
   * exposed. It keeps id, total, status, payment id and creation time, and
   * its items convert back to exactly the order's items.
   */
  function ToResponse(id: string, order: Order): (r: OrderResponse)
    ensures r.id == id && r.total == order.total && r.status == order.status
    ensures r.paymentId == order.paymentId && r.createdAt == order.createdAt
    ensures |r.items| == |order.items|
    ensures forall k :: 0 <= k < |r.items| ==> FromItemResponse(r.items[k]) == order.items[k]
  {
    OrderResponse(id, ToItemResponses(order.items), order.total, order.status, order.paymentId, order.createdAt)
  }

  function FromItemResponse(r: OrderItemResponse): OrderItem
  {
    OrderItem(r.productId, r.name, r.quantity, r.price)
  }

  /** Price times quantity summed over item responses. */
  function ResponseTotal(items: seq<OrderItemResponse>): int
  {
    if items == [] then 0 else items[0].price * items[0].quantity + ResponseTotal(items[1..])
  }

  /** The items shown in a response add up to the same amount as the order's items. */
  lemma {:induction false} ResponseTotalMatches(items: seq<OrderItem>)
    ensures ResponseTotal(ToItemResponses(items)) == ItemsTotal(items)
  {
    if items != [] {
      ResponseTotalMatches(items[1..]);
      assert ToItemResponses(items)[1..] == ToItemResponses(items[1..]);
    }
  }
}
