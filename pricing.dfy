/** The order-summary arithmetic that CartScreen, CartDrawer and
    CheckoutScreen each repeat: subtotal, a flat shipping fee, a fixed tax
    rate and their sum. Money is held in integer cents; the tax, which is a
    fraction of a cent in general, is an exact rational (`real`). Rounding
    to two decimals happens only when the screens display a value and is
    not modelled. */
module Pricing {

  /** The flat shipping fee, 5.99, in cents. */
  const ShippingCents: int := 599

  /** The tax rate, 8%. */
  const TaxRate: real := 0.08

  datatype Summary = Summary(subtotal: int, shipping: int, tax: real, total: real)

  /** `shipping = 5.99; tax = subtotal * 0.08; total = subtotal + shipping + tax`.
      The fee is charged whatever the subtotal, an empty cart included. */
  function Summarize(subtotal: int): (r: Summary)
    ensures r.subtotal == subtotal && r.shipping == ShippingCents
    ensures r.tax == TaxRate * subtotal as real
    ensures r.total == 1.08 * subtotal as real + 5.99 * 100.0
  {
    var tax := subtotal as real * TaxRate;
    Summary(subtotal, ShippingCents, tax, subtotal as real + ShippingCents as real + tax)
  }

  /** A larger subtotal never yields a smaller total. */
  lemma TotalMonotone(a: int, b: int)
    requires a <= b
    ensures Summarize(a).total <= Summarize(b).total
  {
  }

  /** The worked example: items 29.99 x 2 and 59.99 x 1 give a subtotal of
      119.97, tax 9.5976 (9.60 once displayed) and a total of 135.5576. */
  lemma WorkedExample()
    ensures Summarize(2999 * 2 + 5999 * 1) == Summary(11997, 599, 959.76, 13555.76)
  {
  }
}
