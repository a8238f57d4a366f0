# Webwares shop core in Dafny

This project models the business core of the Webwares Spring Boot shop:

- the cart operations (add, set quantity, remove, read, and the one-time move of a cart stored under the buyer's e-mail to the buyer's user id);
- order placement (stock check and decrement line by line, item snapshot, total, payment intent, emptying the cart), the administrative status overwrite and the order lookup;
- payment reconciliation through the Razorpay verification call and the mock webhook;
- the rate-limit filter in front of the login and order endpoints;
- the product catalogue operations and list parameters;
- the exception-to-response mapping;
- the product and order mappers.

The MongoDB repositories are one `Store` object (`Repositories.Store`), whose fields hold:

- products and orders by id;
- users as e-mail to user id;
- carts by owner key;
- payments as a sequence searched first-match.

Each service method changes the store in place and is proved equal to a specification function over a value snapshot of the store (`Shop`). The properties are lemmas about those functions.

The rate limiter is a class whose map of counter objects is updated in place. It is proved against a function over the counters' values.

The gateway's order creation, the signature check, the clock and generated ids are parameters:

- `GatewayReply` is the provider order id or a failure message.
- `SignatureCheck` is valid, invalid or a library failure.
- `now` is the clock.
- A fresh id is required not to be in use.

Money is an integer amount in minor units.

## Model

| member | source | states |
|---|---|---|
| OrderService.ReserveLineStep | src/main/java/com/example/ecommerce/service/order/OrderService.java:56-71 | one line is reserved exactly when its product exists with enough stock left by the earlier lines; its quantity is then taken, its stock stays non-negative, no other product changes, and its item copies the line's quantity and the product's name and price |
| OrderService.ReserveLineErrors | src/main/java/com/example/ecommerce/service/order/OrderService.java:57-61 | a line that cannot be reserved fails NotFound "Product not found" or BadRequest "Insufficient stock for product: " + the product's name |
| OrderService.ReserveLine | src/main/java/com/example/ecommerce/service/order/OrderService.java:57-70 | a line is reserved iff its product exists with at least the line's quantity in stock; then that stock drops by the quantity and stays non-negative, no product appears or disappears, and the item has the line's product and quantity |
| OrderService.ReserveFrom | src/main/java/com/example/ecommerce/service/order/OrderService.java:56-71 | the items built so far are kept as a prefix, at most one item is added per remaining line, it fails iff it stops before the last line, and no product appears or disappears |
| OrderService.Reserve | src/main/java/com/example/ecommerce/service/order/OrderService.java:56-71 | at most one item per line, completion iff one item per line, and the same products afterwards |
| OrderService.ReserveStock | src/main/java/com/example/ecommerce/service/order/OrderService.java:56-71 | the loop that reads, checks and saves each line's product in turn ends with the items, failure and catalogue of Reserve, other state unchanged |
| OrderService.ReserveFromEffect | src/main/java/com/example/ecommerce/service/order/OrderService.java:56-71 | the reservation takes lines in order while they fit and stops at the first that does not; the lines taken have their quantities subtracted and get matching items |
| OrderService.ReserveEffect | src/main/java/com/example/ecommerce/service/order/OrderService.java:56-71 | a whole cart's reservation completes iff every line fits the stock the earlier lines left; quantities taken per product, no stock negative, one item per line in cart order at catalogue name and price; the line that stops it fails NotFound "Product not found" when its product is missing, else BadRequest "Insufficient stock for product: " + that product's catalogue name |
| OrderService.ReserveDistinctLines | src/main/java/com/example/ecommerce/service/order/OrderService.java:56-71 | for a cart naming each product once, placement's reservation completes iff every product exists with at least the line's quantity, and each stock drops by exactly that quantity |
| OrderService.TotalOfMatchedItems | src/main/java/com/example/ecommerce/service/order/OrderService.java:73 | the order total (price times quantity summed over the items) equals the cart's value at catalogue prices |
| OrderService.PlaceOrderSpec | src/main/java/com/example/ecommerce/service/order/OrderService.java:48-97 | no cart fails NotFound and an empty cart BadRequest, nothing written; a line that does not fit fails with earlier lines' stock kept taken; a gateway failure leaves the order saved CREATED without payment id; success stores the order with the provider order id, records the payment and empties the cart; users never change, a failure never touches carts or payments |
| OrderService.PlaceOrderEffect | src/main/java/com/example/ecommerce/service/order/OrderService.java:48-97 | placement succeeds iff the cart exists, is non-empty, every line fits and the gateway creates the provider order; then the order is the user's, CREATED, with the provider order id, items one per line, total the cart's value, stock taken per product and never negative, cart empty |
| OrderService.PlaceOrderFailureEffect | src/main/java/com/example/ecommerce/service/order/OrderService.java:48-97 | a failed placement never empties the cart or records a payment; either no order exists and some leading lines' stock is taken (the next one not fitting), or the gateway failed after the CREATED order without payment id was saved and all stock was taken |
| OrderService.PlaceOrderExactStock | src/main/java/com/example/ecommerce/service/order/OrderService.java:48-97 | two units at price 10 with two in stock: placed, total 20, stock 0, cart empty |
| OrderService.PlaceOrderShortStock | src/main/java/com/example/ecommerce/service/order/OrderService.java:56-61 | three units with two in stock: BadRequest naming the product and the store unchanged |
| OrderService.PlaceOrderKeepsEarlierReservations | src/main/java/com/example/ecommerce/service/order/OrderService.java:56-71 | when the second line is short, the first line's stock stays taken (5 becomes 4), with no order and the cart unchanged |
| OrderService.UpdateStatusSpec | src/main/java/com/example/ecommerce/service/order/OrderService.java:111-117 | an unknown id fails NotFound with nothing changed; otherwise only that order's status changes, to any value, and the response shows it |
| OrderService.UpdateStatusLastWins | src/main/java/com/example/ecommerce/service/order/OrderService.java:111-117 | two overwrites equal the second alone: no transition is refused or remembered |
| OrderService.PlaceOrder | src/main/java/com/example/ecommerce/service/order/OrderService.java:48-97 | the reservation loop over the cart's lines saves each product as it goes; result and new store are those of PlaceOrderSpec |
| OrderService.UpdateStatus | src/main/java/com/example/ecommerce/service/order/OrderService.java:111-117 | result and new store are those of UpdateStatusSpec |
| OrderService.GetById | src/main/java/com/example/ecommerce/service/order/OrderService.java:119-123 | fails NotFound "Order not found" iff the id is unknown; otherwise the response is the stored order's, with id, status, total, payment id and creation time copied and items converting back to the order's items |
| CartService.FindLine | src/main/java/com/example/ecommerce/service/cart/CartService.java:43 | the first line for the product, or none when no line names it |
| CartService.MergeLineEffect | src/main/java/com/example/ecommerce/service/cart/CartService.java:42-52 | a present product gets the quantity added to its line, otherwise one line is appended; other lines keep place and content, the product's quantity grows by the amount, unique products stay unique |
| CartService.MergeLine | src/main/java/com/example/ecommerce/service/cart/CartService.java:42-52 | at most one line is added, existing lines keep their products, and afterwards some line names the product |
| CartService.MergeLineOthers | src/main/java/com/example/ecommerce/service/cart/CartService.java:42-52 | other products' quantities are unchanged by an add |
| CartService.MergeTwice | src/main/java/com/example/ecommerce/service/cart/CartService.java:42-52 | adding a then b gives the lines of adding a + b once |
| CartService.SetQuantityEffect | src/main/java/com/example/ecommerce/service/cart/CartService.java:61-65 | fails iff no line names the product; otherwise only its first line changes, to the quantity, with no sign or stock check |
| CartService.SetQuantity | src/main/java/com/example/ecommerce/service/cart/CartService.java:61-65 | when the product has a line, the lines keep their number and products and one of them is the product at the new quantity |
| CartService.RemoveLines | src/main/java/com/example/ecommerce/service/cart/CartService.java:74 | a line remains iff it was there and names another product |
| CartService.RemoveLinesKeepsOrder | src/main/java/com/example/ecommerce/service/cart/CartService.java:74 | removal works line by line, so the rest keep their order |
| CartService.RemoveAbsentIsNoOp | src/main/java/com/example/ecommerce/service/cart/CartService.java:74 | removing an absent product changes nothing |
| CartService.RemoveTwice | src/main/java/com/example/ecommerce/service/cart/CartService.java:74 | removing twice is removing once |
| CartService.LookupCart | src/main/java/com/example/ecommerce/service/cart/CartService.java:91-106 | the cart found or created is owned by the user id, and every stored cart stays under its owner's key |
| CartService.MigrateCart | src/main/java/com/example/ecommerce/service/cart/CartService.java:108-115 | the cart LookupCart finds; the extra save happens only when the user id is the e-mail itself, so it changes the carts exactly when no cart was stored under that key, and then stores the new empty cart |
| CartService.LookupCartEffect | src/main/java/com/example/ecommerce/service/cart/CartService.java:91-106 | user id first, e-mail second (moved to the user id, lines kept), else a new empty cart that is not stored; other owners untouched; looking again finds the same cart and changes nothing |
| CartService.LineViews | src/main/java/com/example/ecommerce/service/cart/CartService.java:120-130 | fails NotFound iff some line's product is gone; otherwise one entry per line in order with its product id and quantity and the product's name and price |
| CartService.CartView | src/main/java/com/example/ecommerce/service/cart/CartService.java:117-133 | fails NotFound "Product not found" iff some line's product is gone; otherwise one response line per cart line, in order, with the line's product id and quantity and the product's current name and price |
| CartService.ToResponse | src/main/java/com/example/ecommerce/service/cart/CartService.java:117-133 | the loop's result fails iff a line's product is gone, else has one entry per line with id, quantity, name and price |
| CartService.AddItemSpec | src/main/java/com/example/ecommerce/service/cart/CartService.java:33-55 | unknown product NotFound, requested quantity over stock BadRequest, unknown user NotFound, each with nothing changed; otherwise the user's cart holds the merged lines, other owners' carts are untouched and the answer shows the saved lines |
| CartService.UpdateQuantitySpec | src/main/java/com/example/ecommerce/service/cart/CartService.java:57-68 | unknown user NotFound; a missing line NotFound "Item not found in cart" (a moved cart stays moved); otherwise the line set and saved |
| CartService.RemoveItemSpec | src/main/java/com/example/ecommerce/service/cart/CartService.java:70-77 | unknown user NotFound; otherwise the product's lines are removed and saved, an absent product being no error |
| CartService.GetCartSpec | src/main/java/com/example/ecommerce/service/cart/CartService.java:79-83 | unknown user NotFound; otherwise the looked-up cart's view, moving but never creating a stored cart |
| CartService.FindOrCreateCart | src/main/java/com/example/ecommerce/service/cart/CartService.java:91-106 | cart and carts afterwards are LookupCart's; nothing else changes |
| CartService.FindOrMigrateCart | src/main/java/com/example/ecommerce/service/cart/CartService.java:108-115 | cart and carts afterwards are MigrateCart's; nothing else changes |
| CartService.AddItem | src/main/java/com/example/ecommerce/service/cart/CartService.java:33-55 | result and new store are AddItemSpec's |
| CartService.UpdateQuantity | src/main/java/com/example/ecommerce/service/cart/CartService.java:57-68 | result and new store are UpdateQuantitySpec's |
| CartService.RemoveItem | src/main/java/com/example/ecommerce/service/cart/CartService.java:70-77 | result and new store are RemoveItemSpec's |
| CartService.GetCart | src/main/java/com/example/ecommerce/service/cart/CartService.java:79-83 | result and new store are GetCartSpec's |
| PaymentService.FindBy | src/main/java/com/example/ecommerce/service/payment/PaymentService.java:81-82 | the first payment whose searched field equals the id, or none when none does |
| PaymentService.CreatePaymentIntentSpec | src/main/java/com/example/ecommerce/service/payment/PaymentService.java:43-62 | a gateway failure is BadRequest "Failed to create Razorpay order: " + message with nothing stored; otherwise one payment is appended (RAZORPAY, CREATED, both provider ids the gateway id, no signature) and the id returned |
| PaymentService.NewPayment | src/main/java/com/example/ecommerce/service/payment/PaymentService.java:50-56 | the stored payment: the order id and amount, provider RAZORPAY, status CREATED, both provider ids the gateway's order id, no signature |
| PaymentService.VerifySpec | src/main/java/com/example/ecommerce/service/payment/PaymentService.java:64-100 | invalid signature or verifier failure BadRequest with nothing changed; no payment for the provider order id NotFound; else the payment gets payment id, signature and PAID, and its order (if present, else NotFound after the payment save) becomes PAID with that payment id |
| PaymentService.WebhookLookup | src/main/java/com/example/ecommerce/service/payment/PaymentService.java:103-105 | by provider payment id, and only when none matches by provider order id; none iff neither field matches anywhere |
| PaymentService.WebhookOrderStatus | src/main/java/com/example/ecommerce/service/payment/PaymentService.java:110-114 | "paid" in any case gives PAID, "failed" in any case CANCELLED, anything else keeps the status |
| PaymentService.WebhookSpec | src/main/java/com/example/ecommerce/service/payment/PaymentService.java:102-122 | no payment NotFound with nothing changed; otherwise the raw status is stored on the payment and the order (if present) follows WebhookOrderStatus |
| PaymentService.VerifyFindsCreatedPayment | src/main/java/com/example/ecommerce/service/payment/PaymentService.java:81-92 | a freshly created payment is the one a valid verification finds; the order becomes PAID with the provider payment id |
| PaymentService.WebhookFindsCreatedPayment | src/main/java/com/example/ecommerce/service/payment/PaymentService.java:53-54 | before verification the webhook finds the created payment under the provider order id |
| PaymentService.VerifyIdempotent | src/main/java/com/example/ecommerce/service/payment/PaymentService.java:83-92 | a second identical verification changes nothing and answers the same |
| PaymentService.WebhookIdempotent | src/main/java/com/example/ecommerce/service/payment/PaymentService.java:102-122 | a repeated webhook delivery changes nothing and answers the same |
| PaymentService.VerifyWebhookConverge | src/main/java/com/example/ecommerce/service/payment/PaymentService.java:83-115 | a "paid" webhook and a valid verification leave the order PAID with the payment id in either order; the payment's status is the later writer's |
| PaymentService.SameKeysSameLookup | src/main/java/com/example/ecommerce/service/payment/PaymentService.java:103-105 | lookups depend only on the two searched fields, not on status or signature |
| PaymentService.CreatePaymentIntent | src/main/java/com/example/ecommerce/service/payment/PaymentService.java:43-62 | result and new store are CreatePaymentIntentSpec's |
| PaymentService.VerifyRazorpayPayment | src/main/java/com/example/ecommerce/service/payment/PaymentService.java:64-100 | result and new store are VerifySpec's |
| PaymentService.MockWebhook | src/main/java/com/example/ecommerce/service/payment/PaymentService.java:102-122 | result and new store are WebhookSpec's |
| RateLimiting.TickEffect | src/main/java/com/example/ecommerce/util/RateLimitFilter.java:47-58 | a new key opens a window at now with count 1; a window at least 60000 ms old restarts at now with count 1; otherwise the count grows by one, rejected calls included; over the limit iff the new count exceeds it |
| RateLimiting.Tick | src/main/java/com/example/ecommerce/util/RateLimitFilter.java:47-58 | the window after a call is a fresh one at now holding one call or the old one with one more; the call is over the limit iff that count exceeds it |
| RateLimiting.WithinWindow | src/main/java/com/example/ecommerce/util/RateLimitFilter.java:51-56 | within one window the k-th further call of a key with c calls is over the limit iff c + k + 1 exceeds it |
| RateLimiting.NewKeyWindow | src/main/java/com/example/ecommerce/util/RateLimitFilter.java:49-56 | a new key's calls within a minute of its first: the first `limit` pass, every later one is rejected |
| RateLimiting.FilterStepEffect | src/main/java/com/example/ecommerce/util/RateLimitFilter.java:26-41 | uncounted paths are forwarded with counters unchanged; only the request's own counter changes; rejected iff counted and the new count exceeds the limit, with 429, application/json and a RATE_LIMIT body |
| RateLimiting.FilterStep | src/main/java/com/example/ecommerce/util/RateLimitFilter.java:26-41 | an uncounted path leaves the counters as they were; a counted one adds at most its own key; only a counted path is rejected, with status 429 |
| RateLimiting.ClassifyPaths | src/main/java/com/example/ecommerce/util/RateLimitFilter.java:20-39 | paths starting /api/auth/login are limited to 10 ("Too many login attempts"), other paths starting /api/orders to 5 ("Too many order requests"), nothing else counted |
| RateLimiting.Classify | src/main/java/com/example/ecommerce/util/RateLimitFilter.java:28-39 | only paths under /api/ are counted, with the login limit or the order limit |
| RateLimiting.KeyInjective | src/main/java/com/example/ecommerce/util/RateLimitFilter.java:43-45 | for addresses without '/' and URIs starting with '/', equal keys mean equal address and URI |
| RateLimiting.Key | src/main/java/com/example/ecommerce/util/RateLimitFilter.java:43-45 | the key is the remote address, a colon, then the full request URI |
| RateLimiting.RepeatFollowsCounter | src/main/java/com/example/ecommerce/util/RateLimitFilter.java:26-58 | repeating one counted request is rejected call by call exactly when its key's counter is over the limit |
| RateLimiting.OrderRequestsWithinAMinute | src/main/java/com/example/ecommerce/util/RateLimitFilter.java:34-38 | six order requests from one address within a minute: five forwarded, the sixth rejected with "Too many order requests" |
| RateLimiting.LoginAttemptsWithinAMinute | src/main/java/com/example/ecommerce/util/RateLimitFilter.java:29-33 | login attempt k within a minute of the first is rejected iff k >= 10 |
| RateLimiting.TickRun | src/main/java/com/example/ecommerce/util/RateLimitFilter.java:47-58 | one verdict per call |
| RateLimiting.Repeat | src/main/java/com/example/ecommerce/util/RateLimitFilter.java:26-41 | one outcome per request |
| RateLimiting.WindowCounter.constructor | src/main/java/com/example/ecommerce/util/RateLimitFilter.java:69-71 | a counter starts at the given time with count 0 |
| RateLimiting.RateLimitFilter.constructor | src/main/java/com/example/ecommerce/util/RateLimitFilter.java:24 | the filter starts with no counters |
| RateLimiting.RateLimitFilter.IsRateLimited | src/main/java/com/example/ecommerce/util/RateLimitFilter.java:47-58 | the counters afterwards and the verdict are Tick's on the key's counter, every other key unchanged; counters stay one object per key |
| RateLimiting.RateLimitFilter.DoFilterInternal | src/main/java/com/example/ecommerce/util/RateLimitFilter.java:26-41 | counters afterwards and the outcome are FilterStep's |
| ProductService.SortDirection | src/main/java/com/example/ecommerce/service/product/ProductService.java:72 | ascending iff a second piece exists and equals "asc" ignoring case |
| ProductService.BuildQuery | src/main/java/com/example/ecommerce/service/product/ProductService.java:71-76 | failures are unclassified exceptions (500); a query has the page index >= 0 and size >= 1 as given, a sort field with text and no comma, and the given maximum price |
| ProductService.BuildQueryReadsParameters | src/main/java/com/example/ecommerce/service/product/ProductService.java:71-76 | the sort field is the text before the first comma, direction as above, missing category "" and missing minimum price 0; fails only for a sort string of commas only, a blank field, page < 0 or size < 1 |
| ProductService.FilterKeepsExactly | src/main/java/com/example/ecommerce/service/product/ProductService.java:80 | exactly the entries the availability parameter keeps: all for none, stock > 0 for true, stock == 0 for false |
| ProductService.FilterByAvailability | src/main/java/com/example/ecommerce/service/product/ProductService.java:80 | no more entries than the search returned, each kept by the availability parameter |
| ProductService.FilterPreservesOrder | src/main/java/com/example/ecommerce/service/product/ProductService.java:78-82 | filtering distributes over concatenation, so the search order is kept |
| ProductService.FilterWithoutAvailability | src/main/java/com/example/ecommerce/service/product/ProductService.java:80 | without the parameter nothing is dropped |
| ProductService.ToResponses | src/main/java/com/example/ecommerce/service/product/ProductService.java:81 | one response per entry, in order |
| ProductService.List | src/main/java/com/example/ecommerce/service/product/ProductService.java:70-83 | the query's failure, or at most one response per search result, and an entry of the search is answered iff the availability parameter keeps it |
| ProductService.Create | src/main/java/com/example/ecommerce/service/product/ProductService.java:35-41 | the new product is stored under a fresh id and answered |
| ProductService.Update | src/main/java/com/example/ecommerce/service/product/ProductService.java:43-51 | an unknown id fails NotFound without saving; otherwise the updated product is stored and answered |
| ProductService.Delete | src/main/java/com/example/ecommerce/service/product/ProductService.java:53-60 | an unknown id fails NotFound; otherwise exactly that product is removed |
| ProductService.GetById | src/main/java/com/example/ecommerce/service/product/ProductService.java:62-67 | fails NotFound iff the id is unknown; otherwise the response gives back the id and stored product |
| ExceptionHandler.Build | src/main/java/com/example/ecommerce/exception/handler/GlobalExceptionHandler.java:53-60 | the body carries timestamp, the HTTP status, the error code and the message |
| ExceptionHandler.Handle | src/main/java/com/example/ecommerce/exception/handler/GlobalExceptionHandler.java:20-51 | NotFound 404 NOT_FOUND, BadRequest 400 BAD_REQUEST, validation 400 VALIDATION_ERROR with the first error's message, Unauthorized 401 UNAUTHORIZED, anything else 500 INTERNAL_ERROR; body status equals HTTP status |
| ExceptionHandler.CodeDeterminesStatus | src/main/java/com/example/ecommerce/exception/handler/GlobalExceptionHandler.java:20-51 | equal error codes mean equal statuses; 500 iff the exception is unclassified; statuses lie in 400..500 |
| ProductMapper.ToEntity | src/main/java/com/example/ecommerce/dto/mapper/ProductMapper.java:11-20 | every request field is copied and the image URL is exactly the given one |
| ProductMapper.UpdateEntity | src/main/java/com/example/ecommerce/dto/mapper/ProductMapper.java:22-31 | every request field overwrites the product's; the image URL is the new one when given, else the old one |
| ProductMapper.UpdateIsCreateKeepingImage | src/main/java/com/example/ecommerce/dto/mapper/ProductMapper.java:22-31 | an update gives what a create from the request would, except that a missing image keeps the old URL; updating twice changes nothing more |
| ProductMapper.ToResponse | src/main/java/com/example/ecommerce/dto/mapper/ProductMapper.java:33-43 | the response gives back the id and every product field |
| OrderMapper.ToItemResponses | src/main/java/com/example/ecommerce/dto/mapper/OrderMapper.java:21 | one item response per item, in order |
| OrderMapper.ToItemResponse | src/main/java/com/example/ecommerce/dto/mapper/OrderMapper.java:25-32 | the item comes back unchanged from its response |
| OrderMapper.ToResponse | src/main/java/com/example/ecommerce/dto/mapper/OrderMapper.java:14-23 | id, total, status, payment id and creation time are copied and the items convert back to exactly the order's items |
| OrderMapper.ResponseTotalMatches | src/main/java/com/example/ecommerce/dto/mapper/OrderMapper.java:14-23 | the response's items add up to the same amount as the order's |
| Domain.ItemsTotalAppend | src/main/java/com/example/ecommerce/service/order/OrderService.java:73 | the total of two item lists together is the sum of their totals |
| Text.JavaSplitEmptyIff | src/main/java/com/example/ecommerce/service/product/ProductService.java:71 | split(",") gives no pieces iff the string is one or more commas |
| Text.JavaSplitFirst | src/main/java/com/example/ecommerce/service/product/ProductService.java:71 | the first piece is the text before the first comma |
| Text.JoinSplitAll | src/main/java/com/example/ecommerce/service/product/ProductService.java:71 | the pieces joined with commas give back the string |
| Text.SplitAllCommaFree | src/main/java/com/example/ecommerce/service/product/ProductService.java:71 | no piece contains a comma |
| Text.DropTrailingEmpty | src/main/java/com/example/ecommerce/service/product/ProductService.java:71 | trailing empty pieces are removed and nothing else |
| Text.EqualsIgnoreCase | src/main/java/com/example/ecommerce/service/product/ProductService.java:72 | a word equals itself ignoring case, and equal strings ignoring case have equal lengths |
| Text.HasText | src/main/java/com/example/ecommerce/service/product/ProductService.java:73 | a string with text is non-empty, and one starting with a non-whitespace character has text |
| Text.JavaSplit | src/main/java/com/example/ecommerce/service/product/ProductService.java:71 | a string without a comma splits into itself; no piece contains a comma; with a comma, the last piece is never empty |
| Checkout.PlaceOrderAsRouted | src/main/java/com/example/ecommerce/controller/order/OrderController.java:25-29 | with no cart under the e-mail the placement fails "Cart not found" |
| Checkout.AddedCartNotFoundAsRouted | src/main/java/com/example/ecommerce/controller/order/OrderController.java:28 | after a successful add for a buyer whose user id is not the e-mail, placing the order as routed finds no cart |
| Checkout.PlaceOrderForBuyer | src/main/java/com/example/ecommerce/service/cart/CartService.java:85-89 | an unknown e-mail fails NotFound "User not found"; users never change |
| Checkout.AddedCartFoundForBuyer | src/main/java/com/example/ecommerce/service/order/OrderService.java:50-54 | with the owner key resolved, the cart just added to is found and non-empty; placement succeeds iff every line fits and the gateway creates the order |

## Left out

- Transactions: every write stays once issued. The `@Transactional` annotations on placeOrder and the cart and product writes are not modelled. So a failing later line leaves the earlier lines' stock taken. Placement is not atomic: no step restores the earlier lines' stock when a later line fails or the gateway fails.
- OrderService.PlaceOrderSpec: prices and totals are integers in minor units. The double arithmetic of the total is not modelled. Neither is the `(int)(amount * 100)` paise conversion sent to the gateway.
- OrderService.PlaceOrderSpec: stock arithmetic is unbounded. Java `int` overflow of a stock or quantity is not modelled.
- OrderService.PlaceOrderSpec: the confirmation e-mail is left out. Its failure is caught and only logged, so it never changes the result.
- OrderService.PlaceOrderSpec: the order's creation time is the `now` parameter. The order entity's own timestamp default is not part of this model.
- OrderService.PlaceOrderSpec: the gateway is a `GatewayReply` parameter. The amount and currency sent to it are not modelled.
- userOrders and allOrders are not modelled. They are plain repository listings mapped by OrderMapper.ToResponse.
- RateLimiting.RateLimitFilter.IsRateLimited: the count is unbounded. The `AtomicInteger` wrap-around after 2^31 calls in one window is not modelled.
- RateLimiting.RateLimitFilter.IsRateLimited: calls are sequential, with the clock passed as `now`. The concurrent map and the per-counter lock are not modelled.
- RateLimiting.Tick: rejected calls are counted, and the window restarts when 60000 ms or more have passed. A rejected call still increments the counter, and the reset happens at exactly 60000 ms, not only after.
- CartService.AddItemSpec: only the requested quantity is checked against stock, not the merged total, as in the code.
- CartService.RemoveItemSpec: removing an absent product is no error and is not NotFound, as in the code.
- CartService.UpdateQuantitySpec: quantities are neither sign- nor stock-checked, as in the code.
- The payment document's own id and its `createdAt` audit timestamp are left out. The core never reads either field.
- The cart document's own id is left out. Carts are keyed by their owner key, and the response carries no id.
- Repository methods that throw when several documents match (findByUserId, findByProviderOrderId and the like) are modelled as first-match lookups.
- PaymentService.WebhookSpec: the webhook stores the status string exactly as sent, as in the code.
- Text.EqualsIgnoreCase: Java's case-insensitive comparison is modelled only against lower-case ASCII targets. The non-ASCII characters that fold onto them are included.
- OrderService.UpdateStatusSpec: any status overwrites any other; no status transition is refused, as in the code.
- ProductService.List: the category/price repository search and its pagination are a function parameter. Caching (`@Cacheable`/`@CacheEvict`) is not modelled.
- ProductService.Create and ProductService.Update: the image upload is the `imageUrl` parameter. The file storage is not part of this model.
- ProductMapper.UpdateEntity: the in-place setters are modelled on values (the product before and after). Aliasing of the Java object is not captured.
- ExceptionHandler.Handle: the timestamp is a parameter. The clock is not modelled.
- The placeOrder owner key: the services take it as a parameter. The routing through the controller is modelled only in Checkout, for the finding below.
- Controllers, security, JWT, authentication, analytics, file storage and the legacy `com.suja.webwares` package are not part of this model.

## Findings

| source | as written | input that shows it | evidently intended | confidence | as-written member | corrected member |
|---|---|---|---|---|---|---|
| src/main/java/com/example/ecommerce/controller/order/OrderController.java:28 | placeOrder is given the principal's name (the e-mail) and looks the cart up under it (OrderService.java:50), while addItem saves the cart under the resolved user id (CartService.java:40-53) | a registered buyer whose user id differs from their e-mail, with no cart under the e-mail, adds one item in stock and then places an order: "Cart not found" | placement reads the cart of the user id the e-mail resolves to, as the cart operations do | not executed; high | Checkout.AddedCartNotFoundAsRouted | Checkout.AddedCartFoundForBuyer |
