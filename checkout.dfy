/**
 * The checkout page: a fixed list of order items, the same subtotal and tax
 * formula as the cart with shipping always free, and the payment method radio.
 */
module Checkout {
  import opened Pricing

  datatype OrderItem = OrderItem(name: string, variant: string, quantity: int, price: real)

  /** The order the page summarises. */
  const OrderItems: seq<OrderItem> := [
    OrderItem("Artisan Ceramic Vase", "Gold", 2, 189.0),
    OrderItem("Gold Leaf Pendant Necklace", "Silver", 1, 329.0)
  ]

  /** The amount shown on each summary line. */
  function LineAmounts(items: seq<OrderItem>): (r: seq<real>)
    ensures |r| == |items| && forall i :: 0 <= i < |r| ==> r[i] == items[i].price * items[i].quantity as real
  {
    seq(|items|, i requires 0 <= i < |items| => items[i].price * items[i].quantity as real)
  }

  /**
   * The order summary: the subtotal is the sum of the displayed line amounts,
   * shipping is free whatever the subtotal, and the total is 1.08 × subtotal.
   */
  function CheckoutTotals(items: seq<OrderItem>): (t: OrderTotals)
    ensures t.subtotal == Sum(LineAmounts(items))
    ensures t.shipping == 0.0
    ensures t.tax == t.subtotal * TaxRate
    ensures t.total == t.subtotal * 1.08
  {
    Totals(Sum(LineAmounts(items)), 0.0)
  }

  /** For the page's order: subtotal 707, tax 56.56, total 763.56. */
  lemma FixedOrderTotals()
    ensures CheckoutTotals(OrderItems) == OrderTotals(707.0, 0.0, 56.56, 763.56)
  {
    assert LineAmounts(OrderItems) == [378.0, 329.0];
    assert [378.0, 329.0][..1] == [378.0] && [378.0][..0] == [];
    assert Sum([378.0, 329.0]) == 707.0;
  }

  /** The values the payment radio offers. */
  const PaymentMethods: seq<string> := ["card", "paypal", "apple"]

  /** The payment method selection. */
  class PaymentSelection {
    var paymentMethod: string

    ghost predicate Valid()
      reads this
    {
      paymentMethod in PaymentMethods
    }

    /** Card payment is preselected. */
    constructor ()
      ensures Valid() && paymentMethod == "card"
    {
      paymentMethod := "card";
    }

    /** A radio's change event sets the method to that radio's value. */
    method Choose(choice: string)
      requires Valid() && choice in PaymentMethods
      modifies this
      ensures Valid() && paymentMethod == choice
    {
      paymentMethod := choice;
    }

    /** The card number, name, expiry and CVV fields are rendered only for card payment. */
    predicate ShowsCardFields()
      reads this
    {
      paymentMethod == "card"
    }
  }
}
