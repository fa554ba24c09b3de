/** The quotation builder: line totals, the volume-discount step function,
    the aggregate totals, and the edits of the list of selected lines. */
module Quotations {
  import opened Catalog
  import Lists

  /** A selected line: the product's fields spread into a new object with
      the chosen variation and a quantity. Fees, moq and increment are the
      product's own. */
  datatype Line = Line(product: Product, selectedVariation: Variation, quantity: int)

  /** The three amounts shown under the quotation. */
  datatype Totals = Totals(total: real, discountAmount: real, finalAmount: real)

  /** `fees.reduce((sum, fee) => sum + fee.amount, 0)`, folding from the left. */
  function FeeSum(fees: seq<Fee>): real {
    if |fees| == 0 then 0.0 else FeeSum(fees[..|fees| - 1]) + fees[|fees| - 1].amount
  }

  /** calculateProductTotal: quantity times the unit price, plus the flat fees. */
  function LineTotal(line: Line): real {
    line.quantity as real * line.selectedVariation.basePrice + FeeSum(line.product.fees)
  }

  /** Fees are charged once per line: a line that differs only by `k` more
      units costs exactly `k` more units of the unit price. */
  lemma LineTotalLinearInQuantity(line: Line, line': Line, k: int)
    requires line' == line.(quantity := line.quantity + k)
    ensures LineTotal(line') - LineTotal(line) == k as real * line.selectedVariation.basePrice
  {
    var p := line.selectedVariation.basePrice;
    assert (line.quantity + k) as real * p == line.quantity as real * p + k as real * p;
  }

  /** Non-negative prices, fees and quantity give a non-negative line total. */
  lemma {:induction false} FeeSumNonNegative(fees: seq<Fee>)
    requires forall i :: 0 <= i < |fees| ==> fees[i].amount >= 0.0
    ensures FeeSum(fees) >= 0.0
  {
    if |fees| > 0 {
      FeeSumNonNegative(fees[..|fees| - 1]);
    }
  }

  /** calculateDiscount: strict comparisons checked from the top tier down. */
  function DiscountRate(total: real): (rate: real)
    ensures 0.0 <= rate <= 0.15
  {
    if total > 10000.0 then 0.15
    else if total > 5000.0 then 0.10
    else if total > 2000.0 then 0.05
    else 0.0
  }

  /** The tiers with their boundaries: each boundary value itself belongs to
      the lower tier. */
  lemma DiscountTiers(total: real)
    ensures total <= 2000.0 ==> DiscountRate(total) == 0.0
    ensures 2000.0 < total <= 5000.0 ==> DiscountRate(total) == 0.05
    ensures 5000.0 < total <= 10000.0 ==> DiscountRate(total) == 0.10
    ensures 10000.0 < total ==> DiscountRate(total) == 0.15
    ensures DiscountRate(2000.0) == 0.0 && DiscountRate(5000.0) == 0.05
    ensures DiscountRate(10000.0) == 0.10
  {
  }

  /** The rate never decreases as the total grows. */
  lemma DiscountRateMonotone(t1: real, t2: real)
    requires t1 <= t2
    ensures DiscountRate(t1) <= DiscountRate(t2)
  {
  }

  /** Within one tier the discount amount grows with the total. */
  lemma DiscountAmountMonotoneWithinTier(t1: real, t2: real)
    requires 0.0 <= t1 <= t2
    requires DiscountRate(t1) == DiscountRate(t2)
    ensures t1 * DiscountRate(t1) <= t2 * DiscountRate(t2)
  {
    var r := DiscountRate(t1);
    assert t2 * r - t1 * r == (t2 - t1) * r;
  }

  /** Crossing a tier boundary can lower the amount payable: 2000 pays 2000,
      2001 pays 1900.95. */
  lemma FinalAmountDropsAtTierBoundary()
    ensures Summarize(2001.0).finalAmount < Summarize(2000.0).finalAmount
  {
  }

  /** Sum of the line totals, in list order. */
  function SumLineTotals(lines: seq<Line>): real {
    if |lines| == 0 then 0.0 else SumLineTotals(lines[..|lines| - 1]) + LineTotal(lines[|lines| - 1])
  }

  /** The discount and the final amount derived from a total. */
  function Summarize(total: real): (t: Totals)
    ensures t.total == total
    ensures t.finalAmount == t.total - t.discountAmount
    ensures total >= 0.0 ==> 0.0 <= t.discountAmount <= 0.15 * total
    ensures total >= 0.0 ==> 0.85 * total <= t.finalAmount <= total
    ensures total <= 2000.0 ==> t.discountAmount == 0.0 && t.finalAmount == total
  {
    var rate := DiscountRate(total);
    var discountAmount := total * rate;
    assert total >= 0.0 ==> total * rate <= total * 0.15;
    Totals(total, discountAmount, total - discountAmount)
  }

  /** calculateTotalAmount over the selected lines. */
  function CalculateTotalAmount(lines: seq<Line>): (t: Totals)
    ensures t.total == SumLineTotals(lines)
    ensures t.finalAmount == t.total - t.discountAmount
    ensures |lines| == 0 ==> t == Totals(0.0, 0.0, 0.0)
  {
    Summarize(SumLineTotals(lines))
  }

  /** The worked scenario: one line of 1000 units at 5 with a 50 fee totals
      5050, lands in the 10% tier, and leaves 4545 to pay. */
  lemma ScenarioOneLine(p: Product, v: Variation)
    requires v.basePrice == 5.0 && p.fees == [Fee("setup", 50.0)]
    ensures CalculateTotalAmount([Line(p, v, 1000)]) == Totals(5050.0, 505.0, 4545.0)
  {
    assert p.fees[..0] == [];
    assert FeeSum(p.fees) == 50.0;
    assert LineTotal(Line(p, v, 1000)) == 5050.0;
    assert [Line(p, v, 1000)][..0] == [];
    assert SumLineTotals([Line(p, v, 1000)]) == 5050.0;
  }

  /** addProductToQuotation's new line: the product's fields, the chosen
      variation, and the minimum order quantity. */
  function NewLine(product: Product, variation: Variation): Line {
    Line(product, variation, product.moq)
  }

  /** The minus button: step down by the increment, clamped at the moq. */
  function Decremented(lines: seq<Line>, idx: nat): (r: seq<Line>)
    requires idx < |lines|
  {
    var line := lines[idx];
    var q := line.quantity - line.product.increment;
    lines[idx := line.(quantity := if line.product.moq > q then line.product.moq else q)]
  }

  /** The plus button: step up by the increment, without a ceiling. */
  function Incremented(lines: seq<Line>, idx: nat): (r: seq<Line>)
    requires idx < |lines|
  {
    lines[idx := lines[idx].(quantity := lines[idx].quantity + lines[idx].product.increment)]
  }

  /** Every line is at or above its product's minimum order quantity. */
  ghost predicate AtLeastMoq(lines: seq<Line>) {
    forall i :: 0 <= i < |lines| ==> lines[i].quantity >= lines[i].product.moq
  }

  /** Only line `idx` changes, only in its quantity, and the new quantity is
      `max(moq, quantity - increment)`. */
  lemma DecrementedSpec(lines: seq<Line>, idx: nat)
    requires idx < |lines|
    ensures |Decremented(lines, idx)| == |lines|
    ensures forall i :: 0 <= i < |lines| && i != idx ==> Decremented(lines, idx)[i] == lines[i]
    ensures Decremented(lines, idx)[idx] == lines[idx].(quantity := Decremented(lines, idx)[idx].quantity)
    ensures Decremented(lines, idx)[idx].quantity >= lines[idx].product.moq
    ensures Decremented(lines, idx)[idx].quantity >= lines[idx].quantity - lines[idx].product.increment
    ensures Decremented(lines, idx)[idx].quantity == lines[idx].product.moq
         || Decremented(lines, idx)[idx].quantity == lines[idx].quantity - lines[idx].product.increment
  {
  }

  /** The minus button never takes a line below its moq, so the invariant holds
      afterwards whatever the increment. */
  lemma DecrementedKeepsMoq(lines: seq<Line>, idx: nat)
    requires idx < |lines| && AtLeastMoq(lines)
    ensures AtLeastMoq(Decremented(lines, idx))
  {
  }

  /** The plus button keeps the invariant when the increment is not negative. */
  lemma IncrementedKeepsMoq(lines: seq<Line>, idx: nat)
    requires idx < |lines| && AtLeastMoq(lines)
    requires lines[idx].product.increment >= 0
    ensures AtLeastMoq(Incremented(lines, idx))
  {
  }

  /** Appending a new line keeps the invariant. */
  lemma AppendKeepsMoq(lines: seq<Line>, product: Product, variation: Variation)
    requires AtLeastMoq(lines)
    ensures AtLeastMoq(lines + [NewLine(product, variation)])
  {
  }

  /** Removing a line keeps the invariant. */
  lemma WithoutKeepsMoq(lines: seq<Line>, idx: int)
    requires AtLeastMoq(lines)
    ensures AtLeastMoq(Lists.Without(lines, idx))
  {
    Lists.WithoutSpec(lines, idx);
  }

  /** The total is additive over concatenation of line lists. */
  lemma {:induction false} SumLineTotalsAppend(a: seq<Line>, b: seq<Line>)
    ensures SumLineTotals(a + b) == SumLineTotals(a) + SumLineTotals(b)
    decreases |b|
  {
    if |b| == 0 {
      assert a + b == a;
    } else {
      var b' := b[..|b| - 1];
      assert (a + b)[..|a + b| - 1] == a + b';
      SumLineTotalsAppend(a, b');
    }
  }

  /** Adding a line raises the total by that line's total. */
  lemma TotalAfterAdd(lines: seq<Line>, product: Product, variation: Variation)
    ensures SumLineTotals(lines + [NewLine(product, variation)])
         == SumLineTotals(lines) + product.moq as real * variation.basePrice + FeeSum(product.fees)
  {
    assert (lines + [NewLine(product, variation)])[..|lines|] == lines;
  }

  /** The total splits around any one line. */
  lemma SumAround(lines: seq<Line>, idx: nat)
    requires idx < |lines|
    ensures SumLineTotals(lines)
         == SumLineTotals(lines[..idx]) + LineTotal(lines[idx]) + SumLineTotals(lines[idx + 1..])
  {
    var pre, x, post := lines[..idx], lines[idx], lines[idx + 1..];
    assert lines == (pre + [x]) + post;
    SumLineTotalsAppend(pre + [x], post);
    assert (pre + [x])[..|pre|] == pre;
  }

  /** Removing line `idx` lowers the total by that line's total; an
      out-of-range index changes nothing. */
  lemma TotalAfterRemove(lines: seq<Line>, idx: int)
    ensures 0 <= idx < |lines| ==>
      SumLineTotals(Lists.Without(lines, idx)) == SumLineTotals(lines) - LineTotal(lines[idx])
    ensures !(0 <= idx < |lines|) ==> SumLineTotals(Lists.Without(lines, idx)) == SumLineTotals(lines)
  {
    Lists.WithoutFromIsCut(lines, idx, 0);
    if 0 <= idx < |lines| {
      SumAround(lines, idx);
      SumLineTotalsAppend(lines[..idx], lines[idx + 1..]);
    }
  }

  /** Replacing one line changes the total by the difference of the two lines. */
  lemma TotalAfterReplace(lines: seq<Line>, r: seq<Line>, idx: nat)
    requires idx < |lines| == |r|
    requires forall i :: 0 <= i < |lines| && i != idx ==> r[i] == lines[i]
    ensures SumLineTotals(r) == SumLineTotals(lines) - LineTotal(lines[idx]) + LineTotal(r[idx])
  {
    assert r[..idx] == lines[..idx] && r[idx + 1..] == lines[idx + 1..];
    SumAround(lines, idx);
    SumAround(r, idx);
  }

  /** What one press of a line's plus button adds to the line total. */
  function StepValue(line: Line): real {
    line.product.increment as real * line.selectedVariation.basePrice
  }

  /** One press of the plus button adds `StepValue` to the line total. */
  lemma StepRaisesLineTotal(line: Line, line': Line)
    requires line' == line.(quantity := line.quantity + line.product.increment)
    ensures LineTotal(line') == LineTotal(line) + StepValue(line)
  {
    LineTotalLinearInQuantity(line, line', line.product.increment);
  }

  /** Replacing a summand `before` of `total` by `after` shifts the sum by
      their difference; kept apart so that the solver sees no products. */
  lemma ShiftBy(total: real, total': real, before: real, after: real, delta: real)
    requires total' == total - before + after && after - before == delta
    ensures total' == total + delta
  {
  }

  /** The plus button raises the quotation total by one increment's worth of
      the unit price; fees are untouched. */
  lemma TotalAfterIncrement(lines: seq<Line>, idx: nat)
    requires idx < |lines|
    ensures SumLineTotals(Incremented(lines, idx)) == SumLineTotals(lines) + StepValue(lines[idx])
  {
    var r := Incremented(lines, idx);
    var line := lines[idx];
    TotalAfterReplace(lines, r, idx);
    StepRaisesLineTotal(line, r[idx]);
    ShiftBy(SumLineTotals(lines), SumLineTotals(r), LineTotal(line), LineTotal(r[idx]), StepValue(line));
  }

  /** The state of the builder: the selected lines, replaced on every edit. */
  class QuotationBuilder {
    var selectedProducts: seq<Line>

    constructor ()
      ensures selectedProducts == []
    {
      selectedProducts := [];
    }

    /** The totals shown for the current selection: the sum of its line
        totals, less a discount of at most 15%, none up to 2000. */
    function Totals(): (t: Totals)
      reads this
      ensures t.total == SumLineTotals(selectedProducts)
      ensures t.finalAmount == t.total - t.discountAmount
      ensures t.total >= 0.0 ==> 0.0 <= t.discountAmount <= 0.15 * t.total
      ensures t.total >= 0.0 ==> 0.85 * t.total <= t.finalAmount <= t.total
      ensures t.total <= 2000.0 ==> t.discountAmount == 0.0
    {
      CalculateTotalAmount(selectedProducts)
    }

    /** addProductToQuotation: append exactly one line at the end. */
    method AddProduct(product: Product, variation: Variation)
      modifies this
      ensures selectedProducts == old(selectedProducts) + [NewLine(product, variation)]
      ensures selectedProducts[|old(selectedProducts)|].quantity == product.moq
      ensures AtLeastMoq(old(selectedProducts)) ==> AtLeastMoq(selectedProducts)
    {
      selectedProducts := selectedProducts + [NewLine(product, variation)];
    }

    /** removeProductFromQuotation: drop line `idx`; any other index is a no-op. */
    method RemoveProduct(idx: int)
      modifies this
      ensures selectedProducts == Lists.Without(old(selectedProducts), idx)
      ensures 0 <= idx < |old(selectedProducts)| ==>
        selectedProducts == old(selectedProducts)[..idx] + old(selectedProducts)[idx + 1..]
      ensures !(0 <= idx < |old(selectedProducts)|) ==> selectedProducts == old(selectedProducts)
    {
      Lists.WithoutFromIsCut(selectedProducts, idx, 0);
      selectedProducts := Lists.Without(selectedProducts, idx);
    }

    /** The minus button of line `idx`. */
    method Decrease(idx: nat)
      requires idx < |selectedProducts|
      modifies this
      ensures selectedProducts == Decremented(old(selectedProducts), idx)
      ensures selectedProducts[idx].quantity >= selectedProducts[idx].product.moq
      ensures AtLeastMoq(old(selectedProducts)) ==> AtLeastMoq(selectedProducts)
    {
      var newProducts := selectedProducts;
      var line := newProducts[idx];
      var q := line.quantity - line.product.increment;
      newProducts := newProducts[idx := line.(quantity := if line.product.moq > q then line.product.moq else q)];
      selectedProducts := newProducts;
    }

    /** The plus button of line `idx`. */
    method Increase(idx: nat)
      requires idx < |selectedProducts|
      modifies this
      ensures selectedProducts == Incremented(old(selectedProducts), idx)
      ensures Totals().total == old(Totals()).total + StepValue(old(selectedProducts)[idx])
    {
      TotalAfterIncrement(selectedProducts, idx);
      var newProducts := selectedProducts;
      newProducts := newProducts[idx := newProducts[idx].(quantity := newProducts[idx].quantity + newProducts[idx].product.increment)];
      selectedProducts := newProducts;
    }
  }
}
