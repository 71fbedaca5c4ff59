/**
 * The cart page and the checkout page price shipping differently: the cart
 * page never charges it, checkout charges a flat fee up to the threshold.
 * This relates the two totals without merging the policies.
 */
module ShippingPolicies {
  import opened Entities
  import opened Pricing
  import Checkout
  import CartPage

  /** Checkout's total exceeds the cart page's total by exactly checkout's shipping charge. */
  lemma CheckoutTotalExceedsCartTotal(cart: seq<CartLine>)
    ensures Checkout.GrandTotal(cart) == CartPage.Summarize(cart).total + Checkout.Shipping(cart)
    ensures Subtotal(cart) > Checkout.FreeShippingThreshold ==>
      Checkout.GrandTotal(cart) == CartPage.Summarize(cart).total
    ensures Subtotal(cart) <= Checkout.FreeShippingThreshold ==>
      Checkout.GrandTotal(cart) == CartPage.Summarize(cart).total + Checkout.FlatShippingFee
  {
    SubtotalIsSumOfLines(cart);
  }
}
