/** The arithmetic of checkout and of the cart views: line amounts, the
    subtotal, the voucher discount and the amount charged. */
module Pricing {
  import opened Models

  /** A cart line joined with its product's price at the moment it is read. */
  datatype PricedLine = PricedLine(productId: int, quantity: int, unitPrice: real)

  function Amount(l: PricedLine): real {
    l.unitPrice * l.quantity as real
  }

  /** The sum of price × quantity over the lines. */
  function Subtotal(lines: seq<PricedLine>): real
    decreases |lines|
  {
    if lines == [] then 0.0 else Subtotal(lines[..|lines| - 1]) + Amount(lines[|lines| - 1])
  }

  /** The accumulation loop the controllers run over a cart's lines. */
  method SumLines(lines: seq<PricedLine>) returns (total: real)
    ensures total == Subtotal(lines)
  {
    total := 0.0;
    var i := 0;
    while i < |lines|
      invariant 0 <= i <= |lines|
      invariant total == Subtotal(lines[..i])
    {
      assert lines[..i + 1][..i] == lines[..i];
      total := total + Amount(lines[i]);
      i := i + 1;
    }
    assert lines[..i] == lines;
  }

  /** The subtotal of two runs of lines is the sum of their subtotals. */
  lemma {:induction false} SubtotalConcat(a: seq<PricedLine>, b: seq<PricedLine>)
    ensures Subtotal(a + b) == Subtotal(a) + Subtotal(b)
    decreases |b|
  {
    if b != [] {
      var b', last := b[..|b| - 1], b[|b| - 1];
      assert (a + b)[..|a + b| - 1] == a + b';
      SubtotalConcat(a, b');
    } else {
      assert a + b == a;
    }
  }

  /** Lines with non-negative prices and quantities never sum below zero. */
  lemma {:induction false} SubtotalNonNegative(lines: seq<PricedLine>)
    requires forall l :: l in lines ==> l.unitPrice >= 0.0 && l.quantity >= 0
    ensures Subtotal(lines) >= 0.0
    decreases |lines|
  {
    if lines != [] {
      var init, last := lines[..|lines| - 1], lines[|lines| - 1];
      assert forall l :: l in init ==> l in lines;
      SubtotalNonNegative(init);
      assert last in lines;
      assert Amount(last) >= 0.0;
    }
  }

  /** The discount a voucher gives on a subtotal. A "percent" voucher gives
      that share of the subtotal, cut to `maxDiscount` when it exceeds a
      positive cap; every other discount type gives `discountValue` as it is.
      The result is not clamped to the subtotal. */
  function ComputeDiscount(subtotal: real, v: Voucher): real {
    if v.discountType == PercentDiscount then
      var d := subtotal * v.discountValue / 100.0;
      if d > v.maxDiscount && v.maxDiscount > 0.0 then v.maxDiscount else d
    else
      v.discountValue
  }

  /** The amount charged: subtotal less discount, never below zero. */
  function FinalTotal(subtotal: real, discount: real): (r: real)
    ensures r >= 0.0 && r >= subtotal - discount
    ensures r == 0.0 || r == subtotal - discount
  {
    if subtotal - discount < 0.0 then 0.0 else subtotal - discount
  }

  /** A percent voucher gives the share of the subtotal, or the cap when the
      cap is positive and the share exceeds it; a zero or negative cap means
      no cap. */
  lemma PercentDiscountIsCappedShare(subtotal: real, v: Voucher)
    requires v.discountType == PercentDiscount
    ensures var share := subtotal * v.discountValue / 100.0;
      && (v.maxDiscount > 0.0 ==> ComputeDiscount(subtotal, v) == if share > v.maxDiscount then v.maxDiscount else share)
      && (v.maxDiscount <= 0.0 ==> ComputeDiscount(subtotal, v) == share)
      && ComputeDiscount(subtotal, v) <= share
      && (v.maxDiscount > 0.0 ==> ComputeDiscount(subtotal, v) <= v.maxDiscount)
  {
  }

  /** A percent voucher of at most 100% on a non-negative subtotal never
      discounts less than zero or more than the subtotal. */
  lemma PercentDiscountWithinSubtotal(subtotal: real, v: Voucher)
    requires v.discountType == PercentDiscount
    requires 0.0 <= v.discountValue <= 100.0 && 0.0 <= v.maxDiscount
    requires subtotal >= 0.0
    ensures 0.0 <= ComputeDiscount(subtotal, v) <= subtotal
  {
    var share := subtotal * v.discountValue / 100.0;
    assert subtotal * v.discountValue <= subtotal * 100.0;
    assert 0.0 <= share <= subtotal;
  }

  /** A percent voucher with a non-negative rate discounts a larger subtotal
      at least as much. */
  lemma PercentDiscountMonotone(s1: real, s2: real, v: Voucher)
    requires v.discountType == PercentDiscount && v.discountValue >= 0.0
    requires s1 <= s2
    ensures ComputeDiscount(s1, v) <= ComputeDiscount(s2, v)
  {
    assert s1 * v.discountValue <= s2 * v.discountValue;
  }

  /** Any other voucher type discounts its value whatever the subtotal, even
      when that is more than the subtotal. */
  lemma FixedDiscountIgnoresSubtotal(s1: real, s2: real, v: Voucher)
    requires v.discountType != PercentDiscount
    ensures ComputeDiscount(s1, v) == ComputeDiscount(s2, v) == v.discountValue
  {
  }

  /** When the discount does not exceed the subtotal, the amount charged and
      the discount add back up to the subtotal; otherwise nothing is charged. */
  lemma FinalTotalSplitsSubtotal(subtotal: real, discount: real)
    ensures discount <= subtotal ==> FinalTotal(subtotal, discount) + discount == subtotal
    ensures discount > subtotal ==> FinalTotal(subtotal, discount) == 0.0
  {
  }

  /** 10% of 500,000 capped at 40,000: discount 40,000, charge 460,000. */
  lemma CappedPercentExample()
    ensures var v := Voucher(1, "SAVE10", PercentDiscount, 10.0, 0.0, 40000.0, 0, 0, 1, 1);
      ComputeDiscount(500000.0, v) == 40000.0 && FinalTotal(500000.0, 40000.0) == 460000.0
  {
  }

  /** A fixed 150,000 voucher on 100,000: the discount stays 150,000 (it is not
      clamped) while the charge is 0. */
  lemma FixedDiscountAboveSubtotalExample()
    ensures var v := Voucher(1, "BIG", "fixed", 150000.0, 0.0, 0.0, 0, 0, 1, 1);
      ComputeDiscount(100000.0, v) == 150000.0 && FinalTotal(100000.0, 150000.0) == 0.0
  {
  }
}
