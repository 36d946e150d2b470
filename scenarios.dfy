/**
 * How the pieces fit: the client's checkout total against the server's
 * cross-check, worked pricing examples, and a run of the payment handlers
 * that shows what a caller can rely on from their contracts alone.
 */
module Scenarios {
  import opened Wrappers
  import opened DiscountModel
  import opened OrderModel
  import opened Pricing
  import opened Checkout
  import opened OrderService
  import Cart

  /**
   * A cart the checkout form submits (no coupon, positive subtotal, complete
   * details) is accepted, and the order built carries the total the client showed.
   */
  lemma ClientCheckoutAccepted(info: ShippingInfo, items: seq<LineItem>, caller: Option<string>,
                               table: map<string, Discount>, now: nat)
    requires ValidShippingInfo(info) && items != []
    requires forall i :: 0 <= i < |items| ==> ValidLineItem(items[i])
    requires Subtotal(items) > 0.0
    ensures var r := CreateOrder(OrderRequest(Some(info), Some(items), Some(Cart.CheckoutTotal(items)), ""), caller, table, now);
      r.Ok? && r.value.amount == Cart.CheckoutTotal(items) && r.value.products == items
  {
    Cart.CheckoutTotalMatchesServer(items);
  }

  /** A cart whose subtotal is not positive sends 0, which the first check refuses. */
  lemma ZeroTotalCartRefused(info: ShippingInfo, items: seq<LineItem>, caller: Option<string>,
                             table: map<string, Discount>, now: nat)
    requires Subtotal(items) <= 0.0
    ensures CreateOrder(OrderRequest(Some(info), Some(items), Some(Cart.CheckoutTotal(items)), ""), caller, table, now)
         == Err(IncompleteData)
  {
  }

  /**
   * Without a coupon the amount is not clamped: a line with a negative
   * quantity yields a negative amount, which is truthy, within tolerance of
   * itself, and accepted into the order as it is.
   */
  lemma NegativeAmountAccepted(table: map<string, Discount>, now: nat)
    ensures var r := CreateOrder(OrderRequest(Some(SampleInfo()), Some([LineItem("p", "n", 100000.0, -1, None)]),
                                              Some(-50000.0), ""), None, table, now);
      r.Ok? && r.value.amount == -50000.0 && r.value.amount < 0.0
  {
    assert [LineItem("p", "n", 100000.0, -1, None)][..0] == [];
  }

  function SampleInfo(): ShippingInfo {
    ShippingInfo("Sara", "Ahmadi", "09120000000", "Tehran", "Tehran", "Valiasr St.", None, None)
  }

  function SampleCart(): seq<LineItem> {
    [LineItem("p1", "Bucket", 100000.0, 2, None)]
  }

  /** Two units at 100000: subtotal 200000, shipping 50000, total 250000; 249000 is refused. */
  lemma PlainCartPricing(table: map<string, Discount>, now: nat)
    ensures ComputeQuote(SampleCart(), None) == Quote(200000.0, 50000.0, None, 250000.0)
    ensures CreateOrder(OrderRequest(Some(SampleInfo()), Some(SampleCart()), Some(250000.0), ""), None, table, now).Ok?
    ensures CreateOrder(OrderRequest(Some(SampleInfo()), Some(SampleCart()), Some(249000.0), ""), None, table, now)
         == Err(AmountMismatch)
  {
    assert SampleCart()[..0] == [];
  }

  /** A live 20 percent coupon on a 200000 subtotal takes off 40000, leaving 210000. */
  lemma PercentCouponPricing(now: nat)
    ensures var table := map["SAVE20" := Discount("SAVE20", Percent, 20.0, true, None)];
      && ApplicableCoupon(table, "save20", now) == Some(table["SAVE20"])
      && ComputeQuote(SampleCart(), ApplicableCoupon(table, "save20", now))
         == Quote(200000.0, 50000.0, Some(AppliedDiscount("SAVE20", 40000.0)), 210000.0)
  {
    assert SampleCart()[..0] == [];
    assert UpperCase("save20") == "SAVE20";
  }

  /**
   * A full run: order, authority, confirmation. A second verification that
   * the gateway does not confirm again turns the paid order into a failed
   * one and keeps its reference id, since the handler does not look at the
   * current payment status.
   */
  method PaymentRun(now: nat)
  {
    var shop := new Shop(map[], "");
    var req := OrderRequest(Some(SampleInfo()), Some(SampleCart()), Some(250000.0), "");
    PlainCartPricing(map[], now);
    var placed := shop.PlaceOrder(req, None, now);
    assert placed.Ok?;
    var id := placed.value.orderId;
    assert shop.orders[id].amount == 250000.0;

    var reply, call := shop.RequestPayment(id, OrderService.Answer(100, "A1"));
    assert call == Some(RequestCall(250000.0, "سفارش " + id, DefaultCallbackUrl + "?orderId=" + id));
    assert shop.orders[id].paymentAuthority == Some("A1");

    reply, call := shop.VerifyPayment("A2", id, OrderService.Answer(100, "R9"));
    assert reply == InvalidTransaction && call.None?;
    assert shop.orders[id].paymentStatus == AwaitingPayment;

    reply, call := shop.VerifyPayment("A1", id, OrderService.Answer(100, "R1"));
    assert reply.PaymentVerified? && call == Some(VerifyCall(250000.0, "A1"));
    assert shop.orders[id].paymentStatus == Paid && shop.orders[id].paymentRefId == Some("R1");

    reply, call := shop.VerifyPayment("A1", id, OrderService.Answer(101, "R1"));
    assert reply.PaymentRejected?;
    assert shop.orders[id].paymentStatus == PaymentFailed && shop.orders[id].paymentRefId == Some("R1");
  }
}
