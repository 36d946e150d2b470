/**
 * The money calculator of `/api/create-order` (server.js): subtotal as the
 * sum of price times quantity, the fixed shipping cost, the coupon discount
 * clamped at zero, and the tolerance of the client-amount cross-check.
 * Amounts are exact rationals; the client (public/myjs.js) sums a cart with
 * the same `Subtotal`.
 */
module Pricing {
  import opened Wrappers
  import opened OrderModel
  import opened DiscountModel

  const ShippingCost: real := 50000.0

  /** The largest accepted gap between the client's amount and the server's. */
  const Tolerance: real := 1.0

  function Max(a: real, b: real): real {
    if a >= b then a else b
  }

  function Abs(x: real): real {
    if x >= 0.0 then x else -x
  }

  function LineTotal(item: LineItem): real {
    item.price * item.quantity as real
  }

  /** `items.reduce((sum, item) => sum + item.price * item.quantity, 0)`: a left fold. */
  function Subtotal(items: seq<LineItem>): real {
    if items == [] then 0.0 else Subtotal(items[..|items| - 1]) + LineTotal(items[|items| - 1])
  }

  lemma SubtotalSnoc(items: seq<LineItem>, item: LineItem)
    ensures Subtotal(items + [item]) == Subtotal(items) + LineTotal(item)
  {
    assert (items + [item])[..|items|] == items;
  }

  /** The fold distributes over concatenation. */
  lemma {:induction false} SubtotalConcat(a: seq<LineItem>, b: seq<LineItem>)
    ensures Subtotal(a + b) == Subtotal(a) + Subtotal(b)
    decreases |b|
  {
    if b == [] {
      assert a + b == a;
    } else {
      var front := b[..|b| - 1];
      var last := b[|b| - 1];
      assert a + b == (a + front) + [last];
      assert b == front + [last];
      SubtotalConcat(a, front);
      SubtotalSnoc(a + front, last);
      SubtotalSnoc(front, last);
    }
  }

  /** Changing one line's quantity changes the subtotal by that line's difference only. */
  lemma {:induction false} SubtotalUpdate(items: seq<LineItem>, i: nat, item: LineItem)
    requires i < |items|
    ensures Subtotal(items[i := item]) == Subtotal(items) - LineTotal(items[i]) + LineTotal(item)
  {
    var updated := items[i := item];
    assert items == items[..i] + [items[i]] + items[i + 1..];
    assert updated == items[..i] + [item] + items[i + 1..];
    SubtotalConcat(items[..i] + [items[i]], items[i + 1..]);
    SubtotalConcat(items[..i] + [item], items[i + 1..]);
    SubtotalSnoc(items[..i], items[i]);
    SubtotalSnoc(items[..i], item);
  }

  /** Non-negative prices and quantities give a non-negative subtotal. */
  lemma {:induction false} SubtotalNonNegative(items: seq<LineItem>)
    requires forall i :: 0 <= i < |items| ==> items[i].price >= 0.0 && items[i].quantity >= 0
    ensures Subtotal(items) >= 0.0
    decreases |items|
  {
    if items != [] {
      var last := items[|items| - 1];
      SubtotalNonNegative(items[..|items| - 1]);
      assert last.price * last.quantity as real >= 0.0;
    }
  }

  /** `percent`: that share of the subtotal; `fixed`: the value itself. */
  function DiscountAmount(d: Discount, subtotal: real): real {
    if d.discountType == Percent then (subtotal * d.value) / 100.0 else d.value
  }

  /** A percentage between 0 and 100 of a non-negative subtotal never exceeds it. */
  lemma PercentDiscountBounded(d: Discount, subtotal: real)
    requires d.discountType == Percent && 0.0 <= d.value <= 100.0 && subtotal >= 0.0
    ensures 0.0 <= DiscountAmount(d, subtotal) <= subtotal
  {
    ScaleMonotone(subtotal, d.value, 100.0);
    ScaleMonotone(subtotal, 0.0, d.value);
    HundredthBounded(subtotal * d.value, subtotal);
  }

  /** Scaling by a non-negative factor keeps the order. */
  lemma ScaleMonotone(k: real, lo: real, hi: real)
    requires k >= 0.0 && lo <= hi
    ensures k * lo <= k * hi
  {
  }

  /** A hundredth of a value between 0 and 100 times a bound lies between 0 and the bound. */
  lemma HundredthBounded(m: real, bound: real)
    requires 0.0 <= m <= bound * 100.0
    ensures 0.0 <= m / 100.0 <= bound
  {
  }

  /** What the server charges for a cart. */
  datatype Quote = Quote(subtotal: real, shippingCost: real, discount: Option<AppliedDiscount>, amount: real)

  /** The part of the total a quote takes off for its coupon. */
  function DiscountOf(q: Quote): real {
    if q.discount.Some? then q.discount.value.amount else 0.0
  }

  /**
   * Pricing with an already-resolved coupon (one that passed the active and
   * expiry checks): the amount is subtotal plus shipping, and when a coupon
   * applies its discount is taken off with the result clamped at zero.
   */
  function ComputeQuote(items: seq<LineItem>, coupon: Option<Discount>): (q: Quote)
    ensures q.subtotal == Subtotal(items) && q.shippingCost == ShippingCost
    ensures q.discount.Some? <==> coupon.Some?
    ensures coupon.Some? ==>
      && q.discount.value.code == coupon.value.code
      && q.discount.value.amount == DiscountAmount(coupon.value, q.subtotal)
      && q.amount >= 0.0
      && q.amount == Max(0.0, q.subtotal + q.shippingCost - q.discount.value.amount)
    ensures coupon.None? ==> q.amount == q.subtotal + q.shippingCost
  {
    var subtotal := Subtotal(items);
    var before := subtotal + ShippingCost;
    match coupon
    case None => Quote(subtotal, ShippingCost, None, before)
    case Some(d) =>
      var off := DiscountAmount(d, subtotal);
      Quote(subtotal, ShippingCost, Some(AppliedDiscount(d.code, off)), Max(0.0, before - off))
  }

  /**
   * For a cart without negative lines the quote reconciles: the amount is
   * subtotal plus shipping less the discount, clamped at zero, and a
   * non-negative discount never raises it.
   */
  lemma QuoteReconciles(items: seq<LineItem>, coupon: Option<Discount>)
    requires forall i :: 0 <= i < |items| ==> items[i].price >= 0.0 && items[i].quantity >= 0
    ensures var q := ComputeQuote(items, coupon);
      && q.amount == Max(0.0, q.subtotal + q.shippingCost - DiscountOf(q))
      && q.amount >= 0.0
      && (DiscountOf(q) >= 0.0 ==> q.amount <= q.subtotal + q.shippingCost)
  {
    SubtotalNonNegative(items);
  }

  /** A percent coupon of at most 100 leaves at least the shipping cost to pay. */
  lemma PercentCouponKeepsShipping(items: seq<LineItem>, d: Discount)
    requires forall i :: 0 <= i < |items| ==> items[i].price >= 0.0 && items[i].quantity >= 0
    requires d.discountType == Percent && 0.0 <= d.value <= 100.0
    ensures ShippingCost <= ComputeQuote(items, Some(d)).amount <= Subtotal(items) + ShippingCost
  {
    SubtotalNonNegative(items);
    PercentDiscountBounded(d, Subtotal(items));
  }

  /** `Math.abs(finalAmount - amount) > 1` is the rejection test; this is its negation. */
  predicate WithinTolerance(computed: real, sent: real) {
    Abs(computed - sent) <= Tolerance
  }
}
