/**
 * Payments through the Razorpay gateway: creating the provider order for a
 * placed order, verifying the provider's callback signature, and the mock
 * webhook that sets a payment's status.
 *
 * The gateway's answer and the signature library's verdict are parameters.
 * Neither verify nor the webhook is transactional: a payment they have
 * updated stays updated when the order lookup that follows fails.
 */
module PaymentService {
  import opened Wrappers
  import opened Domain
  import opened Text
  import opened Repositories

  datatype PaymentResponse = PaymentResponse(orderId: string, providerOrderId: string, status: string, amount: int)

  /** What the gateway's order-creation call returned: the provider order id, or an exception's message. */
  datatype GatewayReply = Created(providerOrderId: string) | GatewayFailed(message: string)

  /** What the signature check of the provider library decided: valid, invalid, or an exception's message. */
  datatype SignatureCheck = SignatureOk | SignatureMismatch | VerifierError(message: string)

  /** The two payment fields the repository can search by. */
  datatype PaymentKey = ByProviderOrderId | ByProviderPaymentId

  function KeyOf(p: Payment, key: PaymentKey): string
  {
    if key == ByProviderOrderId then p.providerOrderId else p.providerPaymentId
  }

  /** The position of the first payment whose field equals `id`. */
  function FindBy(payments: seq<Payment>, key: PaymentKey, id: string): (r: Option<nat>)
    ensures r.Some? ==> r.value < |payments| && KeyOf(payments[r.value], key) == id
    ensures r.Some? ==> forall j :: 0 <= j < r.value ==> KeyOf(payments[j], key) != id
    ensures r.None? ==> forall j :: 0 <= j < |payments| ==> KeyOf(payments[j], key) != id
  {
    if payments == [] then None
    else if KeyOf(payments[0], key) == id then Some(0)
    else
      match FindBy(payments[1..], key, id)
      case None => None
      case Some(i) => Some(i + 1)
  }

  /** The record createPaymentIntent stores; the provider payment id starts out as the provider order id. */
  function NewPayment(orderId: string, providerOrderId: string, amount: int): (p: Payment)
    ensures p.orderId == orderId && p.amount == amount
    ensures p.provider == "RAZORPAY" && p.status == "CREATED"
    ensures p.providerOrderId == providerOrderId && p.providerPaymentId == providerOrderId
    ensures p.providerSignature.None?
  {
    Payment(orderId, "RAZORPAY", providerOrderId, providerOrderId, None, "CREATED", amount)
  }

  /** createPaymentIntent: store a new payment and answer the provider order id, or fail and store nothing. */
  function CreatePaymentIntentSpec(s: Shop, orderId: string, amount: int, reply: GatewayReply): (r: (Result<string>, Shop))
    ensures r.1.products == s.products && r.1.users == s.users && r.1.carts == s.carts && r.1.orders == s.orders
    ensures reply.GatewayFailed? ==> r == (Err(BadRequest("Failed to create Razorpay order: " + reply.message)), s)
    ensures reply.Created? ==>
              && r.0 == Ok(reply.providerOrderId)
              && |r.1.payments| == |s.payments| + 1 && r.1.payments[..|s.payments|] == s.payments
              && var p := r.1.payments[|s.payments|];
                 p.orderId == orderId && p.amount == amount && p.provider == "RAZORPAY" && p.status == "CREATED"
                 && p.providerOrderId == reply.providerOrderId && p.providerPaymentId == reply.providerOrderId
                 && p.providerSignature.None?
  {
    match reply
    case GatewayFailed(msg) => (Err(BadRequest("Failed to create Razorpay order: " + msg)), s)
    case Created(id) => (Ok(id), s.(payments := s.payments + [NewPayment(orderId, id, amount)]))
  }

  /**
   * verifyRazorpayPayment: the signature first (nothing changes when it is
   * rejected), then the payment by provider order id; the payment is marked
   * paid and saved, then its order is marked paid with the provider payment id.
   */
  function VerifySpec(s: Shop, razorpayOrderId: string, razorpayPaymentId: string, razorpaySignature: string,
                      check: SignatureCheck): (r: (Result<PaymentResponse>, Shop))
    ensures r.1.products == s.products && r.1.users == s.users && r.1.carts == s.carts
    ensures |r.1.payments| == |s.payments|
    ensures check.SignatureMismatch? ==> r == (Err(BadRequest("Invalid Razorpay signature")), s)
    ensures check.VerifierError? ==> r == (Err(BadRequest("Failed to verify Razorpay signature: " + check.message)), s)
    ensures check.SignatureOk? && FindBy(s.payments, ByProviderOrderId, razorpayOrderId).None? ==>
              r == (Err(ResourceNotFound("Payment not found for order")), s)
    ensures check.SignatureOk? && FindBy(s.payments, ByProviderOrderId, razorpayOrderId).Some? ==>
              var i := FindBy(s.payments, ByProviderOrderId, razorpayOrderId).value;
              var p := s.payments[i];
              && r.1.payments[i] == p.(providerPaymentId := razorpayPaymentId, providerSignature := Some(razorpaySignature), status := "PAID")
              && (forall j :: 0 <= j < |s.payments| && j != i ==> r.1.payments[j] == s.payments[j])
              && (p.orderId !in s.orders ==> r.0 == Err(ResourceNotFound("Order not found")) && r.1.orders == s.orders)
              && (p.orderId in s.orders ==>
                    && r.0 == Ok(PaymentResponse(p.orderId, razorpayOrderId, "PAID", p.amount))
                    && r.1.orders == s.orders[p.orderId := s.orders[p.orderId].(status := PAID, paymentId := Some(razorpayPaymentId))])
  {
    match check
    case SignatureMismatch => (Err(BadRequest("Invalid Razorpay signature")), s)
    case VerifierError(msg) => (Err(BadRequest("Failed to verify Razorpay signature: " + msg)), s)
    case SignatureOk =>
      match FindBy(s.payments, ByProviderOrderId, razorpayOrderId)
      case None => (Err(ResourceNotFound("Payment not found for order")), s)
      case Some(i) =>
        var payment := s.payments[i].(providerPaymentId := razorpayPaymentId,
                                      providerSignature := Some(razorpaySignature), status := "PAID");
        var saved := s.(payments := s.payments[i := payment]);
        if payment.orderId !in s.orders then (Err(ResourceNotFound("Order not found")), saved)
        else
          var order := s.orders[payment.orderId].(status := PAID, paymentId := Some(payment.providerPaymentId));
          (Ok(PaymentResponse(payment.orderId, payment.providerOrderId, payment.status, payment.amount)),
           saved.(orders := s.orders[payment.orderId := order]))
  }

  /** The webhook's lookup: by provider payment id, and only when none matches, by provider order id. */
  function WebhookLookup(payments: seq<Payment>, id: string): (r: Option<nat>)
    ensures r.None? <==> forall j :: 0 <= j < |payments| ==> payments[j].providerPaymentId != id && payments[j].providerOrderId != id
    ensures r.Some? ==> r.value < |payments|
    ensures r.Some? && payments[r.value].providerPaymentId != id ==>
              payments[r.value].providerOrderId == id
              && forall j :: 0 <= j < |payments| ==> payments[j].providerPaymentId != id
  {
    match FindBy(payments, ByProviderPaymentId, id)
    case Some(i) => Some(i)
    case None => FindBy(payments, ByProviderOrderId, id)
  }

  /** The order status a webhook status leads to: "paid" and "failed" in any case move it, anything else keeps it. */
  function WebhookOrderStatus(current: OrderStatus, status: string): (r: OrderStatus)
    ensures EqualsIgnoreCase(status, "paid") ==> r == PAID
    ensures EqualsIgnoreCase(status, "failed") ==> r == CANCELLED
    ensures !EqualsIgnoreCase(status, "paid") && !EqualsIgnoreCase(status, "failed") ==> r == current
  {
    if EqualsIgnoreCase(status, "paid") then PAID
    else if EqualsIgnoreCase(status, "failed") then CANCELLED
    else current
  }

  /**
   * mockWebhook: the payment found by WebhookLookup gets the status string as
   * sent and is saved; then its order's status follows WebhookOrderStatus.
   */
  function WebhookSpec(s: Shop, providerPaymentId: string, status: string): (r: (Result<PaymentResponse>, Shop))
    ensures r.1.products == s.products && r.1.users == s.users && r.1.carts == s.carts
    ensures |r.1.payments| == |s.payments|
    ensures WebhookLookup(s.payments, providerPaymentId).None? ==> r == (Err(ResourceNotFound("Payment not found")), s)
    ensures WebhookLookup(s.payments, providerPaymentId).Some? ==>
              var i := WebhookLookup(s.payments, providerPaymentId).value;
              var p := s.payments[i];
              && r.1.payments == s.payments[i := p.(status := status)]
              && (p.orderId !in s.orders ==> r.0 == Err(ResourceNotFound("Order not found")) && r.1.orders == s.orders)
              && (p.orderId in s.orders ==>
                    && r.0 == Ok(PaymentResponse(p.orderId, p.providerOrderId, status, p.amount))
                    && r.1.orders == s.orders[p.orderId := s.orders[p.orderId].(status := WebhookOrderStatus(s.orders[p.orderId].status, status))])
  {
    match WebhookLookup(s.payments, providerPaymentId)
    case None => (Err(ResourceNotFound("Payment not found")), s)
    case Some(i) =>
      var payment := s.payments[i].(status := status);
      var saved := s.(payments := s.payments[i := payment]);
      if payment.orderId !in s.orders then (Err(ResourceNotFound("Order not found")), saved)
      else
        var order := s.orders[payment.orderId];
        (Ok(PaymentResponse(payment.orderId, payment.providerOrderId, status, payment.amount)),
         saved.(orders := s.orders[payment.orderId := order.(status := WebhookOrderStatus(order.status, status))]))
  }

  /**
   * A payment just created under a provider order id nobody used before is the
   * one a valid verification for that id finds; with its order present, the
   * verification succeeds, reports the amount, and leaves the order paid.
   */
  lemma VerifyFindsCreatedPayment(s: Shop, orderId: string, amount: int, providerOrderId: string,
                                  razorpayPaymentId: string, razorpaySignature: string)
    requires FindBy(s.payments, ByProviderOrderId, providerOrderId).None?
    requires orderId in s.orders
    ensures var created := CreatePaymentIntentSpec(s, orderId, amount, Created(providerOrderId)).1;
            var r := VerifySpec(created, providerOrderId, razorpayPaymentId, razorpaySignature, SignatureOk);
            && r.0 == Ok(PaymentResponse(orderId, providerOrderId, "PAID", amount))
            && r.1.orders[orderId].status == PAID
            && r.1.orders[orderId].paymentId == Some(razorpayPaymentId)
  {
    var created := CreatePaymentIntentSpec(s, orderId, amount, Created(providerOrderId)).1;
    var n := |s.payments|;
    assert created.payments[n].providerOrderId == providerOrderId;
    var f := FindBy(created.payments, ByProviderOrderId, providerOrderId);
    assert f.Some? && f.value == n by {
      assert forall j :: 0 <= j < n ==> created.payments[j] == s.payments[j];
    }
  }

  /** Until it is verified, a created payment is also what the webhook finds for the provider order id. */
  lemma WebhookFindsCreatedPayment(s: Shop, orderId: string, amount: int, providerOrderId: string)
    requires WebhookLookup(s.payments, providerOrderId).None?
    ensures var created := CreatePaymentIntentSpec(s, orderId, amount, Created(providerOrderId)).1;
            WebhookLookup(created.payments, providerOrderId) == Some(|s.payments|)
  {
    var created := CreatePaymentIntentSpec(s, orderId, amount, Created(providerOrderId)).1;
    var n := |s.payments|;
    assert created.payments[n].providerPaymentId == providerOrderId;
    assert forall j :: 0 <= j < n ==> created.payments[j] == s.payments[j];
    var f := FindBy(created.payments, ByProviderPaymentId, providerOrderId);
    assert f.Some? && f.value == n;
  }

  /** Verifying the same callback twice changes nothing the first time did not, and answers the same. */
  lemma VerifyIdempotent(s: Shop, razorpayOrderId: string, razorpayPaymentId: string, razorpaySignature: string,
                         check: SignatureCheck)
    ensures var once := VerifySpec(s, razorpayOrderId, razorpayPaymentId, razorpaySignature, check);
            var twice := VerifySpec(once.1, razorpayOrderId, razorpayPaymentId, razorpaySignature, check);
            twice == once
  {
    var once := VerifySpec(s, razorpayOrderId, razorpayPaymentId, razorpaySignature, check);
    var f := FindBy(s.payments, ByProviderOrderId, razorpayOrderId);
    if check.SignatureOk? && f.Some? {
      var i := f.value;
      assert forall j :: 0 <= j < |s.payments| ==> KeyOf(once.1.payments[j], ByProviderOrderId) == KeyOf(s.payments[j], ByProviderOrderId);
      var g := FindBy(once.1.payments, ByProviderOrderId, razorpayOrderId);
      assert g.Some? && g.value <= i;
      assert g.value == i;
      var q := once.1.payments[i];
      assert q.(providerPaymentId := razorpayPaymentId, providerSignature := Some(razorpaySignature), status := "PAID") == q;
      assert once.1.payments[i := q] == once.1.payments;
      if q.orderId in s.orders {
        var o := once.1.orders[q.orderId];
        assert o.(status := PAID, paymentId := Some(razorpayPaymentId)) == o;
        assert once.1.orders[q.orderId := o] == once.1.orders;
      }
    }
  }

  /** Repeating a webhook delivery changes nothing the first delivery did not, and answers the same. */
  lemma WebhookIdempotent(s: Shop, providerPaymentId: string, status: string)
    ensures var once := WebhookSpec(s, providerPaymentId, status);
            var twice := WebhookSpec(once.1, providerPaymentId, status);
            twice == once
  {
    var once := WebhookSpec(s, providerPaymentId, status);
    assert forall j :: 0 <= j < |s.payments| ==>
      once.1.payments[j].providerPaymentId == s.payments[j].providerPaymentId
      && once.1.payments[j].providerOrderId == s.payments[j].providerOrderId;
    SameKeysSameLookup(s.payments, once.1.payments, providerPaymentId);
    var w := WebhookLookup(s.payments, providerPaymentId);
    if w.Some? {
      var i := w.value;
      var q := once.1.payments[i];
      assert q.(status := status) == q;
      assert once.1.payments[i := q] == once.1.payments;
      var p := s.payments[i];
      if p.orderId in s.orders {
        var o := s.orders[p.orderId];
        var st := WebhookOrderStatus(o.status, status);
        assert WebhookOrderStatus(st, status) == st;
        var o' := once.1.orders[p.orderId];
        assert o'.(status := WebhookOrderStatus(o'.status, status)) == o';
        assert once.1.orders[p.orderId := o'] == once.1.orders;
      }
    }
  }

  /** The store once payment i is confirmed: its fields set, the payment status `status`, its order paid. */
  function PaidState(s: Shop, i: nat, razorpayPaymentId: string, razorpaySignature: string, status: string): Shop
    requires i < |s.payments| && s.payments[i].orderId in s.orders
  {
    var p := s.payments[i];
    s.(payments := s.payments[i := p.(providerPaymentId := razorpayPaymentId,
                                      providerSignature := Some(razorpaySignature), status := status)],
       orders := s.orders[p.orderId := s.orders[p.orderId].(status := PAID, paymentId := Some(razorpayPaymentId))])
  }

  /** A valid verification, then a "paid" webhook under the new provider payment id: the webhook's status stays. */
  lemma VerifyThenWebhook(s: Shop, i: nat, razorpayOrderId: string, razorpayPaymentId: string,
                          razorpaySignature: string, status: string)
    requires FindBy(s.payments, ByProviderOrderId, razorpayOrderId) == Some(i)
    requires forall j :: 0 <= j < |s.payments| && j != i ==> s.payments[j].providerPaymentId != razorpayPaymentId
    requires s.payments[i].orderId in s.orders
    requires EqualsIgnoreCase(status, "paid")
    ensures WebhookSpec(VerifySpec(s, razorpayOrderId, razorpayPaymentId, razorpaySignature, SignatureOk).1,
                        razorpayPaymentId, status).1
         == PaidState(s, i, razorpayPaymentId, razorpaySignature, status)
  {
    var verified := VerifySpec(s, razorpayOrderId, razorpayPaymentId, razorpaySignature, SignatureOk).1;
    assert verified.payments[i].providerPaymentId == razorpayPaymentId;
    var f := FindBy(verified.payments, ByProviderPaymentId, razorpayPaymentId);
    assert f.Some? && f.value == i by {
      assert forall j :: 0 <= j < |s.payments| && j != i ==> verified.payments[j] == s.payments[j];
    }
    var q := verified.payments[i];
    assert verified.payments[i := q.(status := status)]
        == PaidState(s, i, razorpayPaymentId, razorpaySignature, status).payments;
  }

  /** A "paid" webhook under the provider order id, then a valid verification: the verification's "PAID" stays. */
  lemma WebhookThenVerify(s: Shop, i: nat, razorpayOrderId: string, razorpayPaymentId: string,
                          razorpaySignature: string, status: string)
    requires FindBy(s.payments, ByProviderOrderId, razorpayOrderId) == Some(i)
    requires WebhookLookup(s.payments, razorpayOrderId) == Some(i)
    requires s.payments[i].orderId in s.orders
    requires EqualsIgnoreCase(status, "paid")
    ensures VerifySpec(WebhookSpec(s, razorpayOrderId, status).1,
                       razorpayOrderId, razorpayPaymentId, razorpaySignature, SignatureOk).1
         == PaidState(s, i, razorpayPaymentId, razorpaySignature, "PAID")
  {
    var hooked := WebhookSpec(s, razorpayOrderId, status).1;
    SameKeysSameLookup(s.payments, hooked.payments, razorpayOrderId);
    var q := hooked.payments[i];
    assert hooked.payments[i := q.(providerPaymentId := razorpayPaymentId,
                                   providerSignature := Some(razorpaySignature), status := "PAID")]
        == PaidState(s, i, razorpayPaymentId, razorpaySignature, "PAID").payments;
  }

  /**
   * A "paid" confirmation reaching a payment both ways, in either order:
   * the webhook under the provider order id before the verification, or
   * under the provider payment id after it. The order ends up the same
   * either way, paid with the provider payment id; the payment keeps
   * whichever status was written last, so both orders agree on it exactly
   * when the webhook sent "PAID" itself.
   */
  lemma VerifyWebhookConverge(s: Shop, i: nat, razorpayOrderId: string, razorpayPaymentId: string,
                              razorpaySignature: string, status: string)
    requires FindBy(s.payments, ByProviderOrderId, razorpayOrderId) == Some(i)
    requires WebhookLookup(s.payments, razorpayOrderId) == Some(i)
    requires forall j :: 0 <= j < |s.payments| && j != i ==> s.payments[j].providerPaymentId != razorpayPaymentId
    requires s.payments[i].orderId in s.orders
    requires EqualsIgnoreCase(status, "paid")
    ensures var verifiedFirst :=
              WebhookSpec(VerifySpec(s, razorpayOrderId, razorpayPaymentId, razorpaySignature, SignatureOk).1,
                          razorpayPaymentId, status).1;
            var webhookFirst :=
              VerifySpec(WebhookSpec(s, razorpayOrderId, status).1,
                         razorpayOrderId, razorpayPaymentId, razorpaySignature, SignatureOk).1;
            var orderId := s.payments[i].orderId;
            && verifiedFirst.orders == webhookFirst.orders
            && orderId in verifiedFirst.orders
            && verifiedFirst.orders[orderId].status == PAID
            && verifiedFirst.orders[orderId].paymentId == Some(razorpayPaymentId)
            && verifiedFirst.payments[i].status == status
            && webhookFirst.payments[i].status == "PAID"
            && (verifiedFirst.payments == webhookFirst.payments <==> status == "PAID")
  {
    VerifyThenWebhook(s, i, razorpayOrderId, razorpayPaymentId, razorpaySignature, status);
    WebhookThenVerify(s, i, razorpayOrderId, razorpayPaymentId, razorpaySignature, status);
    var a := PaidState(s, i, razorpayPaymentId, razorpaySignature, status);
    var b := PaidState(s, i, razorpayPaymentId, razorpaySignature, "PAID");
    if status != "PAID" {
      assert a.payments[i].status != b.payments[i].status;
    }
  }

  /** Payments that agree on both searchable fields give the same lookups. */
  lemma {:induction false} SameKeysSameLookup(a: seq<Payment>, b: seq<Payment>, id: string)
    requires |a| == |b|
    requires forall j :: 0 <= j < |a| ==>
               a[j].providerPaymentId == b[j].providerPaymentId && a[j].providerOrderId == b[j].providerOrderId
    ensures FindBy(a, ByProviderPaymentId, id) == FindBy(b, ByProviderPaymentId, id)
    ensures FindBy(a, ByProviderOrderId, id) == FindBy(b, ByProviderOrderId, id)
    ensures WebhookLookup(a, id) == WebhookLookup(b, id)
  {
    if a != [] {
      assert forall j :: 0 <= j < |a| - 1 ==> a[1..][j] == a[j + 1] && b[1..][j] == b[j + 1];
      SameKeysSameLookup(a[1..], b[1..], id);
      assert KeyOf(a[0], ByProviderPaymentId) == KeyOf(b[0], ByProviderPaymentId);
      assert KeyOf(a[0], ByProviderOrderId) == KeyOf(b[0], ByProviderOrderId);
    }
  }

  // ---------------------------------------------------------------------------
  // The service calls against the store

  method CreatePaymentIntent(store: Store, orderId: string, amount: int, reply: GatewayReply) returns (r: Result<string>)
    modifies store
    ensures (r, store.State()) == CreatePaymentIntentSpec(old(store.State()), orderId, amount, reply)
  {
    if reply.GatewayFailed? {
      return Err(BadRequest("Failed to create Razorpay order: " + reply.message));
    }
    var payment := NewPayment(orderId, reply.providerOrderId, amount);
    store.payments := store.payments + [payment];
    r := Ok(reply.providerOrderId);
  }

  method VerifyRazorpayPayment(store: Store, razorpayOrderId: string, razorpayPaymentId: string,
                               razorpaySignature: string, check: SignatureCheck) returns (r: Result<PaymentResponse>)
    modifies store
    ensures (r, store.State()) == VerifySpec(old(store.State()), razorpayOrderId, razorpayPaymentId, razorpaySignature, check)
  {
    if check.SignatureMismatch? {
      return Err(BadRequest("Invalid Razorpay signature"));
    }
    if check.VerifierError? {
      return Err(BadRequest("Failed to verify Razorpay signature: " + check.message));
    }
    var found := FindBy(store.payments, ByProviderOrderId, razorpayOrderId);
    if found.None? {
      return Err(ResourceNotFound("Payment not found for order"));
    }
    var i := found.value;
    var payment := store.payments[i].(providerPaymentId := razorpayPaymentId,
                                      providerSignature := Some(razorpaySignature), status := "PAID");
    store.payments := store.payments[i := payment];
    if payment.orderId !in store.orders {
      return Err(ResourceNotFound("Order not found"));
    }
    var order := store.orders[payment.orderId].(status := PAID, paymentId := Some(payment.providerPaymentId));
    store.orders := store.orders[payment.orderId := order];
    r := Ok(PaymentResponse(payment.orderId, payment.providerOrderId, payment.status, payment.amount));
  }

  method MockWebhook(store: Store, providerPaymentId: string, status: string) returns (r: Result<PaymentResponse>)
    modifies store
    ensures (r, store.State()) == WebhookSpec(old(store.State()), providerPaymentId, status)
  {
    var found := WebhookLookup(store.payments, providerPaymentId);
    if found.None? {
      return Err(ResourceNotFound("Payment not found"));
    }
    var i := found.value;
    var payment := store.payments[i].(status := status);
    store.payments := store.payments[i := payment];
    if payment.orderId !in store.orders {
      return Err(ResourceNotFound("Order not found"));
    }
    var order := store.orders[payment.orderId];
    order := order.(status := WebhookOrderStatus(order.status, status));
    store.orders := store.orders[payment.orderId := order];
    r := Ok(PaymentResponse(payment.orderId, payment.providerOrderId, status, payment.amount));
  }
}
