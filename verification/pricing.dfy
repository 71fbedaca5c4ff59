/**
 * The price derivations both the cart page and the checkout page share:
 * the subtotal fold over cart lines and the flat 10% tax. Money is an
 * exact `real`; the pages' floating-point arithmetic is not modelled.
 */
module Pricing {
  import opened Common
  import opened Entities

  /** `item.product?.price || 0`: a missing price counts as zero. */
  function UnitPrice(p: ProductRef): (r: real)
    ensures p.Populated? && p.price.Some? ==> r == p.price.value
    ensures r != 0.0 ==> p.Populated? && p.price == Some(r)
  {
    match p
    case Populated(_, Some(price)) => price
    case _ => 0.0
  }

  function LineAmount(line: CartLine): real
  {
    UnitPrice(line.product) * line.quantity as real
  }

  /** The `reduce` the pages run: a left fold that starts from `acc`. */
  function Accumulate(acc: real, lines: seq<CartLine>): real
    decreases |lines|
  {
    if lines == [] then acc
    else Accumulate(acc + LineAmount(lines[0]), lines[1..])
  }

  /** `calculateTotal`: the cart's subtotal, folded from 0. */
  function Subtotal(cart: seq<CartLine>): (r: real)
    ensures r == SumOfLines(cart)
    ensures cart == [] ==> r == 0.0
  {
    AccumulateAddsSum(0.0, cart);
    Accumulate(0.0, cart)
  }

  /** Reference definition: the sum over lines of unit price times quantity. */
  function SumOfLines(lines: seq<CartLine>): real
    decreases |lines|
  {
    if lines == [] then 0.0
    else LineAmount(lines[0]) + SumOfLines(lines[1..])
  }

  /** `calculateTax`: a flat tenth of the amount. */
  function Tax(amount: real): (r: real)
    ensures r * 10.0 == amount
    ensures amount >= 0.0 ==> 0.0 <= r <= amount
  {
    amount * 0.1
  }

  lemma {:induction false} AccumulateAddsSum(acc: real, lines: seq<CartLine>)
    ensures Accumulate(acc, lines) == acc + SumOfLines(lines)
    decreases |lines|
  {
    if lines != [] {
      AccumulateAddsSum(acc + LineAmount(lines[0]), lines[1..]);
    }
  }

  /** The fold computes the sum over lines; the empty cart gives 0. */
  lemma SubtotalIsSumOfLines(cart: seq<CartLine>)
    ensures Subtotal(cart) == SumOfLines(cart)
    ensures cart == [] ==> Subtotal(cart) == 0.0 && Tax(Subtotal(cart)) == 0.0
  {
  }

  lemma {:induction false} SumOfLinesAppend(a: seq<CartLine>, b: seq<CartLine>)
    ensures SumOfLines(a + b) == SumOfLines(a) + SumOfLines(b)
    decreases |a|
  {
    if a != [] {
      assert (a + b)[1..] == a[1..] + b;
      SumOfLinesAppend(a[1..], b);
    } else {
      assert a + b == b;
    }
  }

  /** The subtotal of two carts laid end to end is the sum of their subtotals. */
  lemma SubtotalAppend(a: seq<CartLine>, b: seq<CartLine>)
    ensures Subtotal(a + b) == Subtotal(a) + Subtotal(b)
  {
    SubtotalIsSumOfLines(a);
    SubtotalIsSumOfLines(b);
    SubtotalIsSumOfLines(a + b);
    SumOfLinesAppend(a, b);
  }

  /** A line whose product has no price adds nothing to the subtotal. */
  lemma UnpricedLineAddsNothing(a: seq<CartLine>, line: CartLine, b: seq<CartLine>)
    requires !(line.product.Populated? && line.product.price.Some?)
    ensures Subtotal(a + [line] + b) == Subtotal(a + b)
  {
    SubtotalAppend(a + [line], b);
    SubtotalAppend(a, [line]);
    SubtotalAppend(a, b);
    SubtotalIsSumOfLines([line]);
    assert [line][1..] == [];
  }

  /** Prices and quantities that are never negative give a subtotal that is never negative. */
  lemma {:induction false} SumOfLinesNonNegative(lines: seq<CartLine>)
    requires forall i :: 0 <= i < |lines| ==> UnitPrice(lines[i].product) >= 0.0 && lines[i].quantity >= 0
    ensures SumOfLines(lines) >= 0.0
    decreases |lines|
  {
    if lines != [] {
      assert UnitPrice(lines[0].product) >= 0.0 && lines[0].quantity >= 0;
      SumOfLinesNonNegative(lines[1..]);
    }
  }

  lemma SubtotalNonNegative(cart: seq<CartLine>)
    requires forall i :: 0 <= i < |cart| ==> UnitPrice(cart[i].product) >= 0.0 && cart[i].quantity >= 0
    ensures Subtotal(cart) >= 0.0
  {
    SubtotalIsSumOfLines(cart);
    SumOfLinesNonNegative(cart);
  }
}
