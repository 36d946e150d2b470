/**
 * The Order collection's schema (orderModel.js): snapshotted line items,
 * shipping details, an optional applied discount, amounts, the payment and
 * fulfilment status enums with their defaults, and the gateway fields.
 */
module OrderModel {
  import opened Wrappers
  import opened SchemaRules
  import Decimal

  /** One purchased product, its name and price copied at order time. */
  datatype LineItem = LineItem(id: string, name: string, price: real, quantity: int, image: Option<string>)

  /** Recipient details; an absent required field is the empty string. */
  datatype ShippingInfo = ShippingInfo(
    firstName: string, lastName: string, phone: string,
    province: string, city: string, address: string,
    postalCode: Option<string>, notes: Option<string>)

  /** The coupon snapshot stored with an order. */
  datatype AppliedDiscount = AppliedDiscount(code: string, amount: real)

  datatype PaymentStatus = AwaitingPayment | Paid | PaymentFailed | PaymentCancelled

  datatype FulfilmentStatus = Processing | Shipped | Delivered | Cancelled

  datatype Order = Order(
    orderId: string,
    user: Option<string>,
    shippingInfo: ShippingInfo,
    products: seq<LineItem>,
    subtotal: real,
    shippingCost: real,
    discount: Option<AppliedDiscount>,
    amount: real,
    paymentStatus: PaymentStatus,
    status: FulfilmentStatus,
    paymentAuthority: Option<string>,
    paymentRefId: Option<string>)

  // ---- status enums -------------------------------------------------------

  function PaymentStatusLabel(s: PaymentStatus): string {
    match s
    case AwaitingPayment => "در انتظار پرداخت"
    case Paid => "پرداخت شده"
    case PaymentFailed => "ناموفق"
    case PaymentCancelled => "لغو شده"
  }

  /** The `enum` list of `paymentStatus`, in schema order. */
  const PaymentStatusLabels: seq<string> :=
    ["در انتظار پرداخت", "پرداخت شده", "ناموفق", "لغو شده"]

  /** Casting a string into the `paymentStatus` enum. */
  function ParsePaymentStatus(spelling: string): (r: Option<PaymentStatus>)
    ensures r.Some? <==> spelling in PaymentStatusLabels
    ensures r.Some? ==> PaymentStatusLabel(r.value) == spelling
  {
    if spelling == PaymentStatusLabels[0] then Some(AwaitingPayment)
    else if spelling == PaymentStatusLabels[1] then Some(Paid)
    else if spelling == PaymentStatusLabels[2] then Some(PaymentFailed)
    else if spelling == PaymentStatusLabels[3] then Some(PaymentCancelled)
    else None
  }

  lemma PaymentStatusRoundTrip(s: PaymentStatus)
    ensures ParsePaymentStatus(PaymentStatusLabel(s)) == Some(s)
  {
  }

  function FulfilmentStatusLabel(s: FulfilmentStatus): string {
    match s
    case Processing => "در حال پردازش"
    case Shipped => "ارسال شده"
    case Delivered => "تحویل داده شده"
    case Cancelled => "لغو شده"
  }

  /** The `enum` list of the fulfilment `status`, in schema order. */
  const FulfilmentStatusLabels: seq<string> :=
    ["در حال پردازش", "ارسال شده", "تحویل داده شده", "لغو شده"]

  /** Casting a string into the fulfilment `status` enum. */
  function ParseFulfilmentStatus(spelling: string): (r: Option<FulfilmentStatus>)
    ensures r.Some? <==> spelling in FulfilmentStatusLabels
    ensures r.Some? ==> FulfilmentStatusLabel(r.value) == spelling
  {
    if spelling == FulfilmentStatusLabels[0] then Some(Processing)
    else if spelling == FulfilmentStatusLabels[1] then Some(Shipped)
    else if spelling == FulfilmentStatusLabels[2] then Some(Delivered)
    else if spelling == FulfilmentStatusLabels[3] then Some(Cancelled)
    else None
  }

  lemma FulfilmentStatusRoundTrip(s: FulfilmentStatus)
    ensures ParseFulfilmentStatus(FulfilmentStatusLabel(s)) == Some(s)
  {
  }

  // ---- order id default ----------------------------------------------------

  const OrderIdPrefix: string := "HP-"

  /** The `orderId` default: `HP-` followed by the clock reading in milliseconds. */
  function DefaultOrderId(now: nat): (id: string)
    ensures |id| > |OrderIdPrefix| && id[..|OrderIdPrefix|] == OrderIdPrefix
  {
    OrderIdPrefix + Decimal.NatToDecimal(now)
  }

  /** The clock reading a default order id was made from. */
  function TimestampOf(id: string): Option<nat> {
    if |id| > |OrderIdPrefix| && id[..|OrderIdPrefix|] == OrderIdPrefix && Decimal.IsDigits(id[|OrderIdPrefix|..])
    then Some(Decimal.ParseDecimal(id[|OrderIdPrefix|..]))
    else None
  }

  /** A default id gives back its clock reading, so two readings never share an id. */
  lemma DefaultOrderIdRoundTrip(now: nat)
    ensures TimestampOf(DefaultOrderId(now)) == Some(now)
  {
    var id := DefaultOrderId(now);
    assert id[|OrderIdPrefix|..] == Decimal.NatToDecimal(now);
    Decimal.ParseNatToDecimal(now);
  }

  lemma DefaultOrderIdInjective(m: nat, n: nat)
    ensures DefaultOrderId(m) == DefaultOrderId(n) ==> m == n
  {
    DefaultOrderIdRoundTrip(m);
    DefaultOrderIdRoundTrip(n);
  }

  // ---- required fields -----------------------------------------------------

  /** `id` and `name` are required strings; `price` and `quantity` are always present here. */
  predicate ValidLineItem(item: LineItem) {
    RequiredText(item.id) && RequiredText(item.name)
  }

  predicate ValidShippingInfo(info: ShippingInfo) {
    && RequiredText(info.firstName) && RequiredText(info.lastName)
    && RequiredText(info.phone) && RequiredText(info.province)
    && RequiredText(info.city) && RequiredText(info.address)
  }

  predicate ValidAppliedDiscount(d: AppliedDiscount) {
    RequiredText(d.code)
  }

  /**
   * `new Order({...})` followed by validation on save: the required fields
   * are checked and the defaults (awaiting payment, processing, no gateway
   * fields) filled in.
   */
  function NewOrder(
    orderId: string, user: Option<string>, shippingInfo: ShippingInfo, products: seq<LineItem>,
    subtotal: real, shippingCost: real, discount: Option<AppliedDiscount>, amount: real
  ): (r: Result<Order, SchemaError>)
    ensures r.Ok? <==>
      && RequiredText(orderId)
      && ValidShippingInfo(shippingInfo)
      && (forall i :: 0 <= i < |products| ==> ValidLineItem(products[i]))
      && (discount.Some? ==> ValidAppliedDiscount(discount.value))
    ensures r.Ok? ==>
      && r.value.orderId == orderId && r.value.user == user
      && r.value.shippingInfo == shippingInfo && r.value.products == products
      && r.value.subtotal == subtotal && r.value.shippingCost == shippingCost
      && r.value.discount == discount && r.value.amount == amount
      && r.value.paymentStatus == AwaitingPayment && r.value.status == Processing
      && r.value.paymentAuthority.None? && r.value.paymentRefId.None?
  {
    if !RequiredText(orderId) then Err(Required("orderId"))
    else if !ValidShippingInfo(shippingInfo) then Err(Required("shippingInfo"))
    else if exists i :: 0 <= i < |products| && !ValidLineItem(products[i]) then Err(Required("products"))
    else if discount.Some? && !ValidAppliedDiscount(discount.value) then Err(Required("discount.code"))
    else Ok(Order(orderId, user, shippingInfo, products, subtotal, shippingCost, discount, amount,
                  AwaitingPayment, Processing, None, None))
  }
}
