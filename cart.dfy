/**
 * The cart page: a list of line items held as component state, changed by the
 * quantity stepper and the remove button, and the order summary derived from
 * it (subtotal, a shipping fee waived above 200, 8 % tax, total), the navbar
 * badge and the free-shipping hint.
 */
module CartPage {
  import opened Options
  import opened Pricing

  /** The fields of a catalogue product the cart reads. */
  datatype CartProduct = CartProduct(id: int, name: string, category: string, price: real, image: string)

  datatype CartItem = CartItem(id: int, product: CartProduct, quantity: int, variant: string)

  const FreeShippingThreshold: real := 200.0
  const FlatShippingFee: real := 15.0

  /** The amount shown on a line: unit price times quantity. */
  function LineAmount(item: CartItem): real
  {
    item.product.price * item.quantity as real
  }

  function LineAmounts(items: seq<CartItem>): (r: seq<real>)
    ensures |r| == |items| && forall i :: 0 <= i < |r| ==> r[i] == LineAmount(items[i])
  {
    seq(|items|, i requires 0 <= i < |items| => LineAmount(items[i]))
  }

  function Subtotal(items: seq<CartItem>): real
  {
    Sum(LineAmounts(items))
  }

  /** Shipping is waived only strictly above the threshold. */
  function Shipping(subtotal: real): (r: real)
    ensures r == 0.0 <==> subtotal > FreeShippingThreshold
    ensures r == 0.0 || r == FlatShippingFee
  {
    if subtotal > FreeShippingThreshold then 0.0 else FlatShippingFee
  }

  /** The order summary of the cart. */
  function CartTotals(items: seq<CartItem>): (t: OrderTotals)
    ensures t.subtotal == Sum(LineAmounts(items))
    ensures t.shipping == (if t.subtotal > FreeShippingThreshold then 0.0 else FlatShippingFee)
    ensures t.tax == t.subtotal * TaxRate && t.total == t.subtotal + t.shipping + t.tax
    ensures t.total == t.subtotal * (1.0 + TaxRate) + t.shipping
  {
    var subtotal := Subtotal(items);
    Totals(subtotal, Shipping(subtotal))
  }

  /** The navbar badge: the sum of the quantities. */
  function BadgeCount(items: seq<CartItem>): int
  {
    if items == [] then 0 else BadgeCount(items[..|items| - 1]) + items[|items| - 1].quantity
  }

  /**
   * "Add $X more for free shipping", shown in the non-empty cart whenever
   * shipping is charged: X is what the subtotal lacks of the threshold.
   */
  function FreeShippingHint(items: seq<CartItem>): (r: Option<real>)
    ensures r.Some? <==> |items| > 0 && CartTotals(items).shipping > 0.0
    ensures r.Some? ==> r.value >= 0.0 && CartTotals(items).subtotal + r.value == FreeShippingThreshold
  {
    var subtotal := Subtotal(items);
    if |items| > 0 && Shipping(subtotal) > 0.0 then Some(FreeShippingThreshold - subtotal) else None
  }

  predicate QuantitiesPositive(items: seq<CartItem>)
  {
    forall i :: 0 <= i < |items| ==> items[i].quantity >= 1
  }

  predicate PricesNonNegative(items: seq<CartItem>)
  {
    forall i :: 0 <= i < |items| ==> items[i].product.price >= 0.0
  }

  /** `items.map(item => item.id === id ? { ...item, quantity } : item)` */
  function WithQuantity(items: seq<CartItem>, id: int, quantity: int): (r: seq<CartItem>)
    ensures |r| == |items|
    ensures forall i :: 0 <= i < |r| ==>
      r[i] == if items[i].id == id then items[i].(quantity := quantity) else items[i]
  {
    seq(|items|, i requires 0 <= i < |items| =>
      if items[i].id == id then items[i].(quantity := quantity) else items[i])
  }

  /** `items.filter(item => item.id !== id)` */
  function WithoutItem(items: seq<CartItem>, id: int): (r: seq<CartItem>)
    ensures |r| <= |items|
    ensures forall x :: x in r <==> x in items && x.id != id
  {
    if items == [] then []
    else (if items[0].id == id then [] else [items[0]]) + WithoutItem(items[1..], id)
  }

  /** Removing keeps the remaining lines in order: it commutes with concatenation. */
  lemma {:induction false} WithoutItemConcat(a: seq<CartItem>, b: seq<CartItem>, id: int)
    ensures WithoutItem(a + b, id) == WithoutItem(a, id) + WithoutItem(b, id)
  {
    if a == [] {
      assert a + b == b;
    } else {
      var head := if a[0].id == id then [] else [a[0]];
      assert (a + b)[0] == a[0];
      assert (a + b)[1..] == a[1..] + b;
      calc {
        WithoutItem(a + b, id);
        head + WithoutItem(a[1..] + b, id);
        { WithoutItemConcat(a[1..], b, id); }
        head + (WithoutItem(a[1..], id) + WithoutItem(b, id));
        (head + WithoutItem(a[1..], id)) + WithoutItem(b, id);
        WithoutItem(a, id) + WithoutItem(b, id);
      }
    }
  }

  /** Removing an id that no line has is a no-op. */
  lemma {:induction false} WithoutAbsentId(items: seq<CartItem>, id: int)
    requires forall i :: 0 <= i < |items| ==> items[i].id != id
    ensures WithoutItem(items, id) == items
  {
    if items != [] {
      WithoutAbsentId(items[1..], id);
      assert items == [items[0]] + items[1..];
    }
  }

  /** With every quantity at least 1, the badge is at least the number of lines. */
  lemma {:induction false} BadgeAtLeastLines(items: seq<CartItem>)
    requires QuantitiesPositive(items)
    ensures BadgeCount(items) >= |items|
  {
    if items != [] {
      BadgeAtLeastLines(items[..|items| - 1]);
    }
  }

  /** With non-negative prices, the total is at least the subtotal. */
  lemma TotalAtLeastSubtotal(items: seq<CartItem>)
    requires PricesNonNegative(items) && QuantitiesPositive(items)
    ensures CartTotals(items).subtotal >= 0.0
    ensures CartTotals(items).total >= CartTotals(items).subtotal
  {
    var amounts := LineAmounts(items);
    forall i | 0 <= i < |amounts|
      ensures amounts[i] >= 0.0
    {
      assert amounts[i] == items[i].product.price * items[i].quantity as real;
    }
    SumNonNegative(amounts);
  }

  /** An empty cart has subtotal and tax 0, and pays the flat fee. */
  lemma EmptyCartTotals()
    ensures CartTotals([]) == OrderTotals(0.0, FlatShippingFee, 0.0, FlatShippingFee)
  {
  }

  /** Adding a line with a non-negative amount never lowers the subtotal. */
  lemma SubtotalGrows(items: seq<CartItem>, extra: CartItem)
    requires LineAmount(extra) >= 0.0
    ensures Subtotal(items + [extra]) >= Subtotal(items)
  {
    assert LineAmounts(items + [extra]) == LineAmounts(items) + [LineAmount(extra)];
    SumConcat(LineAmounts(items), [LineAmount(extra)]);
  }

  /**
   * The total is not monotone in the cart: crossing the free-shipping
   * threshold drops the fee by more than the added line costs with tax.
   */
  lemma TotalCanDrop()
    ensures var before := [CartItem(1, CartProduct(1, "A", "Jewelry", 199.0, ""), 1, "Gold")];
            var after := before + [CartItem(2, CartProduct(2, "B", "Jewelry", 2.0, ""), 1, "Gold")];
            CartTotals(before).total == 229.92 && CartTotals(after).total == 217.08
  {
    var before := [CartItem(1, CartProduct(1, "A", "Jewelry", 199.0, ""), 1, "Gold")];
    var after := before + [CartItem(2, CartProduct(2, "B", "Jewelry", 2.0, ""), 1, "Gold")];
    assert LineAmounts(before) == [199.0];
    assert LineAmounts(after) == [199.0, 2.0];
    assert [199.0, 2.0][..1] == [199.0];
  }

  /** The cart page's state: the list of line items. */
  class Cart {
    var items: seq<CartItem>

    ghost predicate Valid()
      reads this
    {
      QuantitiesPositive(items)
    }

    /** The initial cart: the first two catalogue products, 2 × 'Gold' and 1 × 'Silver'. */
    constructor (first: CartProduct, second: CartProduct)
      ensures Valid()
      ensures items == [CartItem(1, first, 2, "Gold"), CartItem(2, second, 1, "Silver")]
    {
      items := [CartItem(1, first, 2, "Gold"), CartItem(2, second, 1, "Silver")];
    }

    /**
     * The quantity stepper: a quantity below 1 is ignored; otherwise every line
     * with this id takes the new quantity and nothing else changes.
     */
    method UpdateQuantity(id: int, newQuantity: int)
      requires Valid()
      modifies this
      ensures Valid()
      ensures newQuantity < 1 ==> items == old(items)
      ensures newQuantity >= 1 ==> items == WithQuantity(old(items), id, newQuantity)
    {
      if newQuantity < 1 {
        return;
      }
      items := WithQuantity(items, id, newQuantity);
    }

    /** The remove button: drops every line with this id, keeping the rest in order. */
    method RemoveItem(id: int)
      requires Valid()
      modifies this
      ensures Valid()
      ensures items == WithoutItem(old(items), id)
    {
      items := WithoutItem(items, id);
    }
  }
}
