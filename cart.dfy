/**
 * The client cart of public/myjs.js: a list of line items kept in local
 * storage, updated by `add`, `updateQuantity`, `remove` and `clear`, with
 * the cart-icon count and the shipping-inclusive total sent at checkout.
 */
module Cart {
  import opened Wrappers
  import opened OrderModel
  import opened Pricing

  /** A catalogue product as handed to `cart.add`. */
  datatype Product = Product(id: string, name: string, price: real, image: Option<string>)

  /** `{ ...product, quantity }` */
  function ItemOf(product: Product, quantity: int): LineItem {
    LineItem(product.id, product.name, product.price, quantity, product.image)
  }

  /** `items.find(item => item.id === id)`, as the position of the first match. */
  function FindIndex(items: seq<LineItem>, id: string): (r: Option<nat>)
    ensures r.None? <==> forall j :: 0 <= j < |items| ==> items[j].id != id
    ensures r.Some? ==>
      && r.value < |items| && items[r.value].id == id
      && forall j :: 0 <= j < r.value ==> items[j].id != id
  {
    if items == [] then None
    else if items[0].id == id then Some(0)
    else match FindIndex(items[1..], id)
      case None => None
      case Some(k) => Some(k + 1)
  }

  /** `items.filter(item => item.id !== id)` */
  function WithoutId(items: seq<LineItem>, id: string): (r: seq<LineItem>)
    ensures forall j :: 0 <= j < |r| ==> r[j].id != id
    ensures forall j :: 0 <= j < |items| && items[j].id != id ==> items[j] in r
    ensures forall x :: x in r ==> x in items
    ensures |r| <= |items|
  {
    if items == [] then []
    else if items[0].id == id then WithoutId(items[1..], id)
    else [items[0]] + WithoutId(items[1..], id)
  }

  /** `filter` distributes over joined lists, keeping order and repeats. */
  lemma {:induction false} WithoutIdConcat(a: seq<LineItem>, b: seq<LineItem>, id: string)
    ensures WithoutId(a + b, id) == WithoutId(a, id) + WithoutId(b, id)
  {
    if a == [] {
      assert a + b == b;
    } else {
      assert (a + b)[1..] == a[1..] + b;
      WithoutIdConcat(a[1..], b, id);
    }
  }

  /** `items.reduce((sum, item) => sum + item.quantity, 0)`: the cart-icon count. */
  function TotalQuantity(items: seq<LineItem>): int {
    if items == [] then 0 else TotalQuantity(items[..|items| - 1]) + items[|items| - 1].quantity
  }

  /** The quantity held under one product id, summed over every line with it. */
  function QuantityOf(items: seq<LineItem>, id: string): int {
    if items == [] then 0
    else (if items[0].id == id then items[0].quantity else 0) + QuantityOf(items[1..], id)
  }

  /** The total the checkout form sends: shipping is added only to a positive subtotal. */
  function CheckoutTotal(items: seq<LineItem>): (r: real)
    ensures r == 0.0 <==> Subtotal(items) <= 0.0
    ensures r != 0.0 ==> r > ShippingCost
  {
    var subtotal := Subtotal(items);
    if subtotal > 0.0 then subtotal + ShippingCost else 0.0
  }

  predicate DistinctIds(items: seq<LineItem>) {
    forall a, b :: 0 <= a < b < |items| ==> items[a].id != items[b].id
  }

  // ---- lemmas about the reductions ------------------------------------------

  lemma TotalQuantitySnoc(items: seq<LineItem>, item: LineItem)
    ensures TotalQuantity(items + [item]) == TotalQuantity(items) + item.quantity
  {
    assert (items + [item])[..|items|] == items;
  }

  /** The count, summed from the left, equals the sum taken from the front. */
  lemma {:induction false} TotalQuantityFromFront(items: seq<LineItem>)
    requires items != []
    ensures TotalQuantity(items) == items[0].quantity + TotalQuantity(items[1..])
    decreases |items|
  {
    if |items| == 1 {
      assert items[..0] == [];
      assert items[1..] == [];
    } else {
      var front := items[..|items| - 1];
      TotalQuantityFromFront(front);
      assert front[1..] == items[1..][..|items| - 2];
      assert front[0] == items[0];
    }
  }

  /** Removing an id lowers the count by exactly the quantity held under it. */
  lemma {:induction false} TotalQuantityWithout(items: seq<LineItem>, id: string)
    ensures TotalQuantity(WithoutId(items, id)) == TotalQuantity(items) - QuantityOf(items, id)
    decreases |items|
  {
    if items != [] {
      TotalQuantityWithout(items[1..], id);
      TotalQuantityFromFront(items);
      if items[0].id != id {
        TotalQuantityFromFront(WithoutId(items, id));
        assert WithoutId(items, id)[1..] == WithoutId(items[1..], id);
      }
    }
  }

  /** Changing one line's quantity changes the count by the difference only. */
  lemma {:induction false} TotalQuantityUpdate(items: seq<LineItem>, i: nat, q: int)
    requires i < |items|
    ensures TotalQuantity(items[i := items[i].(quantity := q)]) == TotalQuantity(items) - items[i].quantity + q
    decreases |items|
  {
    var last := |items| - 1;
    var updated := items[i := items[i].(quantity := q)];
    assert updated[..last] == if i < last then items[..last][i := items[i].(quantity := q)] else items[..last];
    if i < last {
      TotalQuantityUpdate(items[..last], i, q);
    }
  }

  /** With distinct ids, the lines of an id hold exactly the quantity of its one line. */
  lemma {:induction false} QuantityOfFound(items: seq<LineItem>, i: nat)
    requires DistinctIds(items) && i < |items|
    ensures QuantityOf(items, items[i].id) == items[i].quantity
    decreases |items|
  {
    if i == 0 {
      QuantityOfAbsent(items[1..], items[0].id);
    } else {
      QuantityOfFound(items[1..], i - 1);
    }
  }

  lemma {:induction false} QuantityOfAbsent(items: seq<LineItem>, id: string)
    requires forall j :: 0 <= j < |items| ==> items[j].id != id
    ensures QuantityOf(items, id) == 0
    decreases |items|
  {
    if items != [] {
      QuantityOfAbsent(items[1..], id);
    }
  }

  /** Filtering keeps the order of the remaining lines: with distinct ids it cuts out one line. */
  lemma {:induction false} WithoutFoundId(items: seq<LineItem>, i: nat)
    requires DistinctIds(items) && i < |items|
    ensures WithoutId(items, items[i].id) == items[..i] + items[i + 1..]
    decreases |items|
  {
    var id := items[i].id;
    if i == 0 {
      WithoutAbsentId(items[1..], id);
    } else {
      WithoutFoundId(items[1..], i - 1);
      assert items[..i] == [items[0]] + items[1..][..i - 1];
      assert items[i + 1..] == items[1..][i..];
    }
  }

  lemma {:induction false} WithoutAbsentId(items: seq<LineItem>, id: string)
    requires forall j :: 0 <= j < |items| ==> items[j].id != id
    ensures WithoutId(items, id) == items
    decreases |items|
  {
    if items != [] {
      WithoutAbsentId(items[1..], id);
    }
  }

  /** Cutting out one line keeps the other ids distinct. */
  lemma DistinctAfterCut(items: seq<LineItem>, i: nat)
    requires DistinctIds(items) && i < |items|
    ensures DistinctIds(items[..i] + items[i + 1..])
  {
    var cut := items[..i] + items[i + 1..];
    forall a, b | 0 <= a < b < |cut| ensures cut[a].id != cut[b].id {
      var a' := if a < i then a else a + 1;
      var b' := if b < i then b else b + 1;
      assert cut[a] == items[a'] && cut[b] == items[b'];
    }
  }

  /**
   * The checkout total is what the server charges for the same cart when no
   * coupon applies, as long as the subtotal is positive.
   */
  lemma CheckoutTotalMatchesServer(items: seq<LineItem>)
    requires Subtotal(items) > 0.0
    ensures CheckoutTotal(items) == ComputeQuote(items, None).amount
    ensures WithinTolerance(ComputeQuote(items, None).amount, CheckoutTotal(items))
  {
  }

  class Cart {
    var items: seq<LineItem>

    /** Every operation keeps at most one line per product id. */
    ghost predicate Valid()
      reads this
    {
      DistinctIds(items)
    }

    /** The number on the cart icon. */
    function Count(): int
      reads this
    {
      TotalQuantity(items)
    }

    constructor ()
      ensures Valid() && items == []
    {
      items := [];
    }

    /**
     * `cart.add`: a product already in the cart has its quantity raised by
     * `quantity`; a new product is appended with that quantity. No other
     * line changes.
     */
    method Add(product: Product, quantity: int := 1)
      requires Valid()
      modifies this
      ensures Valid()
      ensures FindIndex(old(items), product.id).Some? ==>
        var i := FindIndex(old(items), product.id).value;
        items == old(items)[i := old(items)[i].(quantity := old(items)[i].quantity + quantity)]
      ensures FindIndex(old(items), product.id).None? ==> items == old(items) + [ItemOf(product, quantity)]
      ensures Count() == old(Count()) + quantity
    {
      var found := FindIndex(items, product.id);
      if found.Some? {
        var i := found.value;
        TotalQuantityUpdate(items, i, items[i].quantity + quantity);
        items := items[i := items[i].(quantity := items[i].quantity + quantity)];
      } else {
        TotalQuantitySnoc(items, ItemOf(product, quantity));
        items := items + [ItemOf(product, quantity)];
      }
    }

    /**
     * `cart.updateQuantity`: an unknown id changes nothing; otherwise the
     * quantity becomes `max(0, newQuantity)`, and a line that reaches 0 is
     * removed.
     */
    method UpdateQuantity(productId: string, newQuantity: int)
      requires Valid()
      modifies this
      ensures Valid()
      ensures FindIndex(old(items), productId).None? ==> items == old(items)
      ensures FindIndex(old(items), productId).Some? && newQuantity > 0 ==>
        var i := FindIndex(old(items), productId).value;
        items == old(items)[i := old(items)[i].(quantity := newQuantity)]
      ensures FindIndex(old(items), productId).Some? && newQuantity <= 0 ==>
        var i := FindIndex(old(items), productId).value;
        items == old(items)[..i] + old(items)[i + 1..]
      ensures FindIndex(old(items), productId).Some? ==>
        var i := FindIndex(old(items), productId).value;
        Count() == old(Count()) - old(items)[i].quantity + (if newQuantity > 0 then newQuantity else 0)
    {
      var found := FindIndex(items, productId);
      if found.Some? {
        var i := found.value;
        var q := if newQuantity > 0 then newQuantity else 0;
        if q == 0 {
          QuantityOfFound(items, i);
          Remove(productId);
        } else {
          TotalQuantityUpdate(items, i, q);
          items := items[i := items[i].(quantity := q)];
        }
      }
    }

    /** `cart.remove`: every line with the id goes, the rest keep their order. */
    method Remove(productId: string)
      requires Valid()
      modifies this
      ensures Valid()
      ensures items == WithoutId(old(items), productId)
      ensures FindIndex(old(items), productId).Some? ==>
        var i := FindIndex(old(items), productId).value;
        items == old(items)[..i] + old(items)[i + 1..]
      ensures FindIndex(old(items), productId).None? ==> items == old(items)
      ensures Count() == old(Count()) - QuantityOf(old(items), productId)
    {
      var found := FindIndex(items, productId);
      if found.Some? {
        WithoutFoundId(items, found.value);
        DistinctAfterCut(items, found.value);
      } else {
        WithoutAbsentId(items, productId);
      }
      TotalQuantityWithout(items, productId);
      items := WithoutId(items, productId);
    }

    /** `cart.clear` */
    method Clear()
      modifies this
      ensures Valid() && items == [] && Count() == 0
    {
      items := [];
    }
  }
}
