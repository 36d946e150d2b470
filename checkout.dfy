/**
 * The pure part of server.js around checkout: the two coupon checks
 * (`/api/validate-coupon` and the one inside `/api/create-order`) and the
 * create-order decision, which validates the request, prices it, cross-checks
 * the client's amount and builds the order to save. Clock readings are
 * parameters; the caller identity is what a valid bearer token yielded.
 */
module Checkout {
  import opened Wrappers
  import opened SchemaRules
  import opened DiscountModel
  import opened OrderModel
  import opened Pricing

  /** `Discount.findOne({ code: couponCode.toUpperCase() })` on a table keyed by code. */
  function FindByCode(table: map<string, Discount>, couponCode: string): (r: Option<Discount>)
    ensures r.Some? <==> UpperCase(couponCode) in table
    ensures r.Some? ==> r.value == table[UpperCase(couponCode)]
  {
    var key := UpperCase(couponCode);
    if key in table then Some(table[key]) else None
  }

  /** Two codes that differ at most in the case of ASCII letters. */
  predicate SameUpToCase(a: string, b: string) {
    |a| == |b| && forall i :: 0 <= i < |a| ==> UpperChar(a[i]) == UpperChar(b[i])
  }

  /** The test of `/api/validate-coupon`: an expiry instant equal to `now` still passes. */
  predicate UsableForValidation(d: Discount, now: int) {
    d.isActive && (d.expiresAt.None? || !(d.expiresAt.value < now))
  }

  /** The test of `/api/create-order`: the expiry must lie strictly after `now`. */
  predicate UsableForOrder(d: Discount, now: int) {
    d.isActive && (d.expiresAt.None? || d.expiresAt.value > now)
  }

  datatype CouponReply =
    | CodeMissing                                          // 400
    | InvalidOrExpired                                     // 404
    | CouponValid(code: string, discountType: DiscountType, value: real)

  /** `/api/validate-coupon`; an absent code is the empty string. */
  function ValidateCoupon(table: map<string, Discount>, couponCode: string, now: int): (r: CouponReply)
    ensures r == CodeMissing <==> couponCode == ""
    ensures r.CouponValid? <==>
      couponCode != "" && UpperCase(couponCode) in table && UsableForValidation(table[UpperCase(couponCode)], now)
    ensures r.CouponValid? ==>
      var d := table[UpperCase(couponCode)];
      r.code == d.code && r.discountType == d.discountType && r.value == d.value
  {
    if couponCode == "" then CodeMissing
    else match FindByCode(table, couponCode)
      case None => InvalidOrExpired
      case Some(d) =>
        if UsableForValidation(d, now) then CouponValid(d.code, d.discountType, d.value) else InvalidOrExpired
  }

  /** The coupon `/api/create-order` applies: found, active and not yet expired. */
  function ApplicableCoupon(table: map<string, Discount>, couponCode: string, now: int): (r: Option<Discount>)
    ensures r.Some? <==>
      couponCode != "" && UpperCase(couponCode) in table && UsableForOrder(table[UpperCase(couponCode)], now)
    ensures r.Some? ==> r.value == table[UpperCase(couponCode)]
  {
    if couponCode == "" then None
    else match FindByCode(table, couponCode)
      case None => None
      case Some(d) => if UsableForOrder(d, now) then Some(d) else None
  }

  /**
   * The two coupon checks agree except at the very instant of expiry, where
   * validation accepts a code that checkout then ignores.
   */
  lemma CouponChecksAgree(table: map<string, Discount>, couponCode: string, now: int)
    ensures ApplicableCoupon(table, couponCode, now).Some? ==> ValidateCoupon(table, couponCode, now).CouponValid?
    ensures ValidateCoupon(table, couponCode, now).CouponValid? && ApplicableCoupon(table, couponCode, now).None? ==>
      table[UpperCase(couponCode)].expiresAt == Some(now)
  {
  }

  /**
   * Coupon lookup ignores the case of what the customer typed: codes that
   * differ only in letter case find the same record, or both find none, and
   * both coupon checks answer them alike.
   */
  lemma FindByCodeIgnoresCase(table: map<string, Discount>, a: string, b: string, now: int)
    requires SameUpToCase(a, b)
    ensures UpperCase(a) == UpperCase(b)
    ensures FindByCode(table, a) == FindByCode(table, b)
    ensures ValidateCoupon(table, a, now) == ValidateCoupon(table, b, now)
    ensures ApplicableCoupon(table, a, now) == ApplicableCoupon(table, b, now)
  {
    assert UpperCase(a) == UpperCase(b);
  }

  /**
   * The body of a create-order request. A missing or non-object
   * `shippingInfo`, a missing or non-array `products`, and a missing or
   * non-numeric `amount` are `None`; a missing coupon code is "".
   */
  datatype OrderRequest = OrderRequest(
    shippingInfo: Option<ShippingInfo>,
    products: Option<seq<LineItem>>,
    amount: Option<real>,
    couponCode: string)

  datatype CreateError =
    | IncompleteData          // 400: the request failed the first check
    | AmountMismatch          // 400: the client's amount is off by more than the tolerance
    | InvalidOrder(schema: SchemaError)   // 500: saving failed validation
    | DuplicateOrderId        // 500: the unique index on orderId refused the insert

  /** The request's first check: shipping info, a non-empty product list and a truthy amount. */
  predicate WellFormed(req: OrderRequest) {
    && req.shippingInfo.Some?
    && req.products.Some? && |req.products.value| > 0
    && req.amount.Some? && req.amount.value != 0.0
  }

  /** What the server charges for a well-formed request. */
  function QuoteFor(req: OrderRequest, table: map<string, Discount>, now: int): Quote
    requires WellFormed(req)
  {
    ComputeQuote(req.products.value, ApplicableCoupon(table, req.couponCode, now))
  }

  /** An order whose amounts are the ones the calculator gives for its products. */
  predicate Priced(o: Order) {
    && |o.products| > 0
    && o.subtotal == Subtotal(o.products)
    && o.shippingCost == ShippingCost
    && (o.discount.None? ==> o.amount == o.subtotal + o.shippingCost)
    && (o.discount.Some? ==>
          o.amount >= 0.0 && o.amount == Max(0.0, o.subtotal + o.shippingCost - o.discount.value.amount))
  }

  /** The fields the Order schema requires, as this request would fill them. */
  predicate SavableRequest(req: OrderRequest, q: Quote)
    requires WellFormed(req)
  {
    && ValidShippingInfo(req.shippingInfo.value)
    && (forall i :: 0 <= i < |req.products.value| ==> ValidLineItem(req.products.value[i]))
    && (q.discount.Some? ==> ValidAppliedDiscount(q.discount.value))
  }

  /**
   * `/api/create-order` up to the insert: reject an incomplete request,
   * price it, reject a client amount off by more than the tolerance, and
   * otherwise build the order from the server-computed figures.
   */
  function CreateOrder(req: OrderRequest, caller: Option<string>, table: map<string, Discount>, now: nat)
    : (r: Result<Order, CreateError>)
    ensures r == Err(IncompleteData) <==> !WellFormed(req)
    ensures r == Err(AmountMismatch) <==>
      WellFormed(req) && !WithinTolerance(QuoteFor(req, table, now).amount, req.amount.value)
    ensures r.Ok? ==>
      && WellFormed(req)
      && var q := QuoteFor(req, table, now);
      && WithinTolerance(q.amount, req.amount.value)
      && r.value.amount == q.amount && r.value.subtotal == q.subtotal
      && r.value.shippingCost == q.shippingCost && r.value.discount == q.discount
      && r.value.products == req.products.value && r.value.shippingInfo == req.shippingInfo.value
      && r.value.user == caller && r.value.orderId == DefaultOrderId(now)
      && r.value.paymentStatus == AwaitingPayment && r.value.status == Processing
      && r.value.paymentAuthority.None? && r.value.paymentRefId.None?
      && Priced(r.value)
    ensures r.Err? && r.error.InvalidOrder? <==>
      && WellFormed(req)
      && WithinTolerance(QuoteFor(req, table, now).amount, req.amount.value)
      && !SavableRequest(req, QuoteFor(req, table, now))
    ensures r != Err(DuplicateOrderId)
  {
    if !WellFormed(req) then Err(IncompleteData)
    else
      var q := QuoteFor(req, table, now);
      if !WithinTolerance(q.amount, req.amount.value) then Err(AmountMismatch)
      else match NewOrder(DefaultOrderId(now), caller, req.shippingInfo.value, req.products.value,
                          q.subtotal, q.shippingCost, q.discount, q.amount)
        case Err(e) => Err(InvalidOrder(e))
        case Ok(o) => Ok(o)
  }

  /**
   * The client's amount is only compared, never stored: two requests that
   * differ only in it produce the same order whenever both are accepted.
   */
  lemma ClientAmountNotStored(req: OrderRequest, sent: real, caller: Option<string>, table: map<string, Discount>, now: nat)
    requires CreateOrder(req, caller, table, now).Ok?
    requires CreateOrder(req.(amount := Some(sent)), caller, table, now).Ok?
    ensures CreateOrder(req.(amount := Some(sent)), caller, table, now) == CreateOrder(req, caller, table, now)
  {
  }

  /** A coupon that checkout accepts is the one recorded, by its stored upper-case code. */
  lemma AppliedCouponRecorded(req: OrderRequest, caller: Option<string>, table: map<string, Discount>, now: nat)
    requires ValidTable(table)
    requires CreateOrder(req, caller, table, now).Ok?
    ensures var o := CreateOrder(req, caller, table, now).value;
      o.discount.Some? <==> ApplicableCoupon(table, req.couponCode, now).Some?
    ensures var o := CreateOrder(req, caller, table, now).value;
      o.discount.Some? ==> o.discount.value.code == UpperCase(req.couponCode) && IsUpperCase(o.discount.value.code)
  {
  }
}
