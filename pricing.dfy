/**
 * The arithmetic the cart and checkout pages share: a left fold of line amounts
 * (JavaScript's `reduce((sum, x) => sum + x, 0)`) and the four order figures.
 * Amounts are exact reals, so no rounding of `subtotal * 0.08` happens here.
 */
module Pricing {

  /** The flat tax rate both pages apply to the subtotal. */
  const TaxRate: real := 0.08

  datatype OrderTotals = OrderTotals(subtotal: real, shipping: real, tax: real, total: real)

  /** Sum of the amounts, folded from the left starting at 0. */
  function Sum(amounts: seq<real>): real
  {
    if amounts == [] then 0.0 else Sum(amounts[..|amounts| - 1]) + amounts[|amounts| - 1]
  }

  predicate AllNonNegative(amounts: seq<real>)
  {
    forall i :: 0 <= i < |amounts| ==> amounts[i] >= 0.0
  }

  /** Summing a concatenation is summing the parts. */
  lemma {:induction false} SumConcat(a: seq<real>, b: seq<real>)
    ensures Sum(a + b) == Sum(a) + Sum(b)
  {
    if b == [] {
      assert a + b == a;
    } else {
      var b' := b[..|b| - 1];
      assert (a + b)[..|a + b| - 1] == a + b';
      SumConcat(a, b');
    }
  }

  /** Non-negative amounts have a non-negative sum. */
  lemma {:induction false} SumNonNegative(amounts: seq<real>)
    requires AllNonNegative(amounts)
    ensures Sum(amounts) >= 0.0
  {
    if amounts != [] {
      SumNonNegative(amounts[..|amounts| - 1]);
    }
  }

  /**
   * The figures of an order from its subtotal and shipping fee: tax is the
   * flat rate of the subtotal and the total adds the three.
   */
  function Totals(subtotal: real, shipping: real): (t: OrderTotals)
    ensures t.subtotal == subtotal && t.shipping == shipping
    ensures t.tax == subtotal * TaxRate && t.total == subtotal + shipping + t.tax
    ensures t.total == subtotal * (1.0 + TaxRate) + shipping
    ensures subtotal >= 0.0 && shipping >= 0.0 ==> t.total >= t.subtotal && t.tax >= 0.0
  {
    var tax := subtotal * TaxRate;
    OrderTotals(subtotal, shipping, tax, subtotal + shipping + tax)
  }
}
