/**
 * The order lifecycle handlers of server.js over the order collection,
 * modelled as a map from public order id to order: create-order's insert,
 * request-payment, verify-payment and the admin fulfilment-status update.
 * The payment gateway is not called: each handler receives the answer the
 * gateway gives and reports the call it would have made.
 */
module OrderService {
  import opened Wrappers
  import opened DiscountModel
  import opened OrderModel
  import opened Pricing
  import opened Checkout

  /** Where the gateway's payment page for an authority starts. */
  const GatewayStartPayUrl: string := "https://www.zarinpal.com/pg/StartPay/"

  /** The callback used when no callback URL is configured. */
  const DefaultCallbackUrl: string := "http://127.0.0.1:5500/payment-verify.html"

  /** The gateway's `data.code` for success. */
  const GatewaySuccess: int := 100

  /**
   * What the gateway answered: nothing usable (timeout, network or HTTP
   * error), or a body with `data.code` and a token, the authority for a
   * payment request and the `ref_id` for a verification.
   */
  datatype GatewayOutcome = TransportError | Answer(code: int, token: string)

  /** The gateway call a handler makes. */
  datatype GatewayCall =
    | RequestCall(amount: real, description: string, callbackUrl: string)
    | VerifyCall(amount: real, authority: string)

  datatype PaymentReply =
    | MissingFields                        // 400
    | OrderNotFound                        // 404
    | InvalidTransaction                   // 400: authority does not match the order's
    | GatewayUnreachable(failedOrder: Option<Order>)   // 502
    | GatewayRefused                       // 500: request-payment got a non-success code
    | PaymentUrl(url: string)              // 200
    | PaymentVerified(order: Order)        // 200, success true
    | PaymentRejected(order: Order)        // 400, success false

  datatype AdminReply = InvalidStatus | StatusUpdated(order: Option<Order>)

  /** `process.env.ZARINPAL_CALLBACK_URL || 'http://127.0.0.1:5500/payment-verify.html'` */
  function CallbackBase(configured: string): (r: string)
    ensures r != ""
    ensures configured != "" ==> r == configured
    ensures configured == "" ==> r == DefaultCallbackUrl
  {
    if configured != "" then configured else DefaultCallbackUrl
  }

  /**
   * What the core keeps true of every stored order's payment fields: it
   * never sets the cancelled payment status, a reference id exists only
   * after a verification, and a verification needs a bound authority.
   */
  predicate PaymentConsistent(o: Order) {
    && o.paymentStatus != PaymentCancelled
    && (o.paymentStatus == AwaitingPayment ==> o.paymentRefId.None?)
    && (o.paymentStatus != AwaitingPayment ==> o.paymentAuthority.Some?)
  }

  class Shop {
    /** The order collection, by public order id. */
    var orders: map<string, Order>
    /** The discount collection, read-only here. */
    const discounts: map<string, Discount>
    /** The configured callback URL ("" when unset). */
    const callbackConfig: string

    ghost predicate Valid()
      reads this
    {
      && ValidTable(discounts)
      && forall id :: id in orders ==>
           orders[id].orderId == id && Priced(orders[id]) && PaymentConsistent(orders[id])
    }

    constructor (discounts: map<string, Discount>, callbackConfig: string)
      requires ValidTable(discounts)
      ensures Valid()
      ensures orders == map[] && this.discounts == discounts && this.callbackConfig == callbackConfig
    {
      this.orders := map[];
      this.discounts := discounts;
      this.callbackConfig := callbackConfig;
    }

    /**
     * `/api/create-order`: decide, then insert under the new order id. The
     * unique index refuses a second order in the same millisecond.
     */
    method PlaceOrder(req: OrderRequest, caller: Option<string>, now: nat) returns (r: Result<Order, CreateError>)
      requires Valid()
      modifies this
      ensures Valid()
      ensures CreateOrder(req, caller, discounts, now).Err? ==>
        r == CreateOrder(req, caller, discounts, now) && orders == old(orders)
      ensures CreateOrder(req, caller, discounts, now).Ok? && DefaultOrderId(now) in old(orders) ==>
        r == Err(DuplicateOrderId) && orders == old(orders)
      ensures CreateOrder(req, caller, discounts, now).Ok? && DefaultOrderId(now) !in old(orders) ==>
        r == CreateOrder(req, caller, discounts, now) && orders == old(orders)[r.value.orderId := r.value]
    {
      r := CreateOrder(req, caller, discounts, now);
      if r.Ok? {
        var order := r.value;
        if order.orderId in orders {
          r := Err(DuplicateOrderId);
        } else {
          orders := orders[order.orderId := order];
        }
      }
    }

    /**
     * `/api/request-payment`: ask the gateway for an authority for the
     * order's stored amount; only a success code binds the returned
     * authority, and every failure leaves the order as it was.
     */
    method RequestPayment(orderId: string, outcome: GatewayOutcome) returns (reply: PaymentReply, call: Option<GatewayCall>)
      requires Valid()
      modifies this
      ensures Valid()
      ensures orderId == "" ==> reply == MissingFields && call.None? && orders == old(orders)
      ensures orderId != "" && orderId !in old(orders) ==> reply == OrderNotFound && call.None? && orders == old(orders)
      ensures orderId != "" && orderId in old(orders) ==>
        var o := old(orders)[orderId];
        && call == Some(RequestCall(o.amount, "سفارش " + orderId, CallbackBase(callbackConfig) + "?orderId=" + orderId))
        && (outcome.TransportError? ==> reply == GatewayUnreachable(None) && orders == old(orders))
        && (outcome.Answer? && outcome.code != GatewaySuccess ==> reply == GatewayRefused && orders == old(orders))
        && (outcome.Answer? && outcome.code == GatewaySuccess ==>
              && orders == old(orders)[orderId := o.(paymentAuthority := Some(outcome.token))]
              && reply == PaymentUrl(GatewayStartPayUrl + outcome.token))
    {
      if orderId == "" {
        return MissingFields, None;
      }
      if orderId !in orders {
        return OrderNotFound, None;
      }
      var order := orders[orderId];
      var callback := CallbackBase(callbackConfig) + "?orderId=" + order.orderId;
      call := Some(RequestCall(order.amount, "سفارش " + orderId, callback));
      if outcome.TransportError? {
        return GatewayUnreachable(None), call;
      }
      if outcome.code == GatewaySuccess {
        order := order.(paymentAuthority := Some(outcome.token));
        orders := orders[orderId := order];
        reply := PaymentUrl(GatewayStartPayUrl + outcome.token);
      } else {
        reply := GatewayRefused;
      }
    }

    /**
     * `/api/verify-payment`: an absent field, an unknown order or an
     * authority other than the bound one is refused before the gateway is
     * asked and changes nothing; otherwise a success code marks the order
     * paid with the gateway's reference id, and any other answer, or none,
     * marks it failed. The current payment status is not consulted.
     */
    method VerifyPayment(authority: string, orderId: string, outcome: GatewayOutcome) returns (reply: PaymentReply, call: Option<GatewayCall>)
      requires Valid()
      modifies this
      ensures Valid()
      ensures authority == "" || orderId == "" ==> reply == MissingFields && call.None? && orders == old(orders)
      ensures authority != "" && orderId != "" && orderId !in old(orders) ==>
        reply == OrderNotFound && call.None? && orders == old(orders)
      ensures authority != "" && orderId != "" && orderId in old(orders) && old(orders)[orderId].paymentAuthority != Some(authority) ==>
        reply == InvalidTransaction && call.None? && orders == old(orders)
      ensures authority != "" && orderId != "" && orderId in old(orders) && old(orders)[orderId].paymentAuthority == Some(authority) ==>
        var o := old(orders)[orderId];
        && call == Some(VerifyCall(o.amount, authority))
        && orderId in orders
        && (outcome.Answer? && outcome.code == GatewaySuccess ==>
              && orders == old(orders)[orderId := o.(paymentStatus := Paid, paymentRefId := Some(outcome.token))]
              && reply == PaymentVerified(orders[orderId]))
        && (outcome.TransportError? ==>
              && orders == old(orders)[orderId := o.(paymentStatus := PaymentFailed)]
              && reply == GatewayUnreachable(Some(orders[orderId])))
        && (outcome.Answer? && outcome.code != GatewaySuccess ==>
              && orders == old(orders)[orderId := o.(paymentStatus := PaymentFailed)]
              && reply == PaymentRejected(orders[orderId]))
    {
      if authority == "" || orderId == "" {
        return MissingFields, None;
      }
      if orderId !in orders {
        return OrderNotFound, None;
      }
      var order := orders[orderId];
      if order.paymentAuthority != Some(authority) {
        return InvalidTransaction, None;
      }
      call := Some(VerifyCall(order.amount, authority));
      if outcome.TransportError? {
        order := order.(paymentStatus := PaymentFailed);
        orders := orders[orderId := order];
        return GatewayUnreachable(Some(order)), call;
      }
      if outcome.code == GatewaySuccess {
        order := order.(paymentStatus := Paid);
        order := order.(paymentRefId := Some(outcome.token));
        orders := orders[orderId := order];
        reply := PaymentVerified(order);
      } else {
        order := order.(paymentStatus := PaymentFailed);
        orders := orders[orderId := order];
        reply := PaymentRejected(order);
      }
    }

    /**
     * `PUT /api/orders/:id/status`: only the four fulfilment statuses are
     * accepted; an unknown order is answered with no order and nothing
     * changes; otherwise only the fulfilment status is replaced.
     */
    method SetFulfilmentStatus(orderId: string, spelling: string) returns (reply: AdminReply)
      requires Valid()
      modifies this
      ensures Valid()
      ensures spelling !in FulfilmentStatusLabels ==> reply == InvalidStatus && orders == old(orders)
      ensures spelling in FulfilmentStatusLabels && orderId !in old(orders) ==>
        reply == StatusUpdated(None) && orders == old(orders)
      ensures spelling in FulfilmentStatusLabels && orderId in old(orders) ==>
        && orders == old(orders)[orderId := old(orders)[orderId].(status := ParseFulfilmentStatus(spelling).value)]
        && FulfilmentStatusLabel(orders[orderId].status) == spelling
        && reply == StatusUpdated(Some(orders[orderId]))
    {
      var parsed := ParseFulfilmentStatus(spelling);
      if parsed.None? {
        return InvalidStatus;
      }
      if orderId !in orders {
        return StatusUpdated(None);
      }
      var order := orders[orderId].(status := parsed.value);
      orders := orders[orderId := order];
      reply := StatusUpdated(Some(order));
    }
  }
}
