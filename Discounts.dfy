/**
 * The discount strategies: each turns an order's original price into the
 * amount taken off it, and names itself with a display label.
 *
 * The strategy interface is closed here into one datatype with a case per
 * implementation: NoDiscount, PercentageDiscount, FixedAmountDiscount, and
 * the ad hoc "Buy One Get One Free" strategy (half price) that the demo
 * driver and the tests define inline.
 */
module Discounts {
  import opened Format

  datatype Discount =
    | NoDiscount
    | PercentageDiscount(percentage: real)
    | FixedAmountDiscount(discountAmount: real)
    | BuyOneGetOne

  /**
   * The amount the strategy takes off originalPrice. No strategy validates
   * its inputs, but an admissible one on a non-negative price takes off
   * between 0 and the price, and a fixed amount never takes off more than
   * the price.
   */
  function CalculateDiscount(d: Discount, originalPrice: real): (discount: real)
    ensures Admissible(d) && 0.0 <= originalPrice ==> 0.0 <= discount <= originalPrice
    ensures d.FixedAmountDiscount? ==> discount <= originalPrice
  {
    match d
    case NoDiscount => 0.0
    case PercentageDiscount(percentage) =>
      PercentageBounds(percentage, originalPrice);
      originalPrice * (percentage / 100.0)
    case FixedAmountDiscount(discountAmount) =>
      if discountAmount <= originalPrice then discountAmount else originalPrice
    case BuyOneGetOne => originalPrice * 0.5
  }

  /** The strategy's display text; its first character tells which strategy it is. */
  function DiscountType(d: Discount): (text: string)
    ensures 1 <= |text|
    ensures text[0] == 'N' <==> d.NoDiscount?
    ensures (text[0] == '-' || IsDigit(text[0])) <==> d.PercentageDiscount?
    ensures text[0] == '$' <==> d.FixedAmountDiscount?
    ensures text[0] == 'B' <==> d.BuyOneGetOne?
  {
    match d
    case NoDiscount => "No Discount"
    case PercentageDiscount(percentage) => Fmt(percentage) + "% Discount"
    case FixedAmountDiscount(discountAmount) => "$" + Fmt(discountAmount) + " Off"
    case BuyOneGetOne => "Buy One Get One Free"
  }

  /** The configured amounts have at most MaxFractionDigits decimal places, so their text is exact. */
  predicate ShortSetting(d: Discount) {
    match d
    case NoDiscount => true
    case PercentageDiscount(percentage) => ShortDecimal(percentage)
    case FixedAmountDiscount(discountAmount) => ShortDecimal(discountAmount)
    case BuyOneGetOne => true
  }

  /**
   * The label identifies the strategy: two strategies whose amounts are
   * rendered exactly have the same label exactly when they are the same
   * strategy with the same setting.
   */
  lemma DiscountTypeInjective(d1: Discount, d2: Discount)
    requires ShortSetting(d1) && ShortSetting(d2)
    ensures DiscountType(d1) == DiscountType(d2) <==> d1 == d2
  {
    if DiscountType(d1) == DiscountType(d2) {
      match d1
      case PercentageDiscount(p1) =>
        var p2 := d2.percentage;
        CancelSuffix(Fmt(p1), Fmt(p2), "% Discount");
        FmtInjective(p1, p2);
      case FixedAmountDiscount(a1) =>
        var a2 := d2.discountAmount;
        CancelAround("$", Fmt(a1), Fmt(a2), " Off");
        FmtInjective(a1, a2);
      case _ =>
    }
  }

  /** The strategy contract at one price: the discount lies between 0 and the price. */
  predicate WithinPrice(d: Discount, price: real) {
    0.0 <= CalculateDiscount(d, price) <= price
  }

  /** The configurations for which a strategy keeps its contract. */
  predicate Admissible(d: Discount) {
    match d
    case NoDiscount => true
    case PercentageDiscount(percentage) => 0.0 <= percentage <= 100.0
    case FixedAmountDiscount(discountAmount) => 0.0 <= discountAmount
    case BuyOneGetOne => true
  }

  /** p% of a non-negative price, for 0 <= p <= 100, lies between 0 and the price. */
  lemma PercentageBounds(percentage: real, price: real)
    ensures 0.0 <= percentage <= 100.0 && 0.0 <= price ==> 0.0 <= price * (percentage / 100.0) <= price
  {
    if 0.0 <= percentage <= 100.0 && 0.0 <= price {
      var rate := percentage / 100.0;
      assert 0.0 <= rate <= 1.0;
      assert price * rate <= price * 1.0 by {
        assert price * (1.0 - rate) >= 0.0;
      }
    }
  }

  /**
   * A strategy keeps 0 <= discount <= price at every non-negative price
   * exactly when it is admissible: a rate outside [0, 100] or a negative
   * fixed amount breaks the contract at some price.
   */
  lemma AdmissibleIffWithinPrice(d: Discount)
    ensures Admissible(d) <==> forall price :: 0.0 <= price ==> WithinPrice(d, price)
  {
    match d
    case NoDiscount =>
    case PercentageDiscount(percentage) =>
      if !Admissible(d) {
        assert !WithinPrice(d, 1.0);
      }
    case FixedAmountDiscount(discountAmount) =>
      if !Admissible(d) {
        assert !WithinPrice(d, 0.0);
      }
    case BuyOneGetOne =>
  }

  /** NoDiscount takes nothing off, at any price, and is labelled "No Discount". */
  lemma NoDiscountFacts(price: real)
    ensures CalculateDiscount(NoDiscount, price) == 0.0
    ensures price - CalculateDiscount(NoDiscount, price) == price
    ensures DiscountType(NoDiscount) == "No Discount"
    ensures 0.0 <= price ==> WithinPrice(NoDiscount, price)
  {
  }

  /** A percentage of 0 takes nothing off; a percentage of 100 takes the whole price. */
  lemma PercentageEdges(price: real)
    ensures CalculateDiscount(PercentageDiscount(0.0), price) == 0.0
    ensures CalculateDiscount(PercentageDiscount(100.0), price) == price
  {
  }

  /**
   * The percentage is not clamped: above 100 the discount exceeds a
   * positive price, so the final amount is negative.
   */
  lemma PercentageUnclamped(percentage: real, price: real)
    requires 100.0 < percentage && 0.0 < price
    ensures CalculateDiscount(PercentageDiscount(percentage), price) > price
    ensures price - CalculateDiscount(PercentageDiscount(percentage), price) < 0.0
  {
    var rate := percentage / 100.0;
    assert price * (rate - 1.0) > 0.0;
  }

  /** The fixed discount is the smaller of the configured amount and the price. */
  lemma FixedAmountIsMin(discountAmount: real, price: real)
    ensures var r := CalculateDiscount(FixedAmountDiscount(discountAmount), price);
      r <= price && r <= discountAmount && (r == price || r == discountAmount)
    ensures 0.0 <= price - CalculateDiscount(FixedAmountDiscount(discountAmount), price)
    ensures discountAmount <= price ==>
      CalculateDiscount(FixedAmountDiscount(discountAmount), price) == discountAmount
    ensures price <= discountAmount ==>
      price - CalculateDiscount(FixedAmountDiscount(discountAmount), price) == 0.0
    ensures 0.0 <= discountAmount && 0.0 <= price ==>
      0.0 <= CalculateDiscount(FixedAmountDiscount(discountAmount), price)
  {
  }

  /** Buy One Get One Free takes exactly half of the price off. */
  lemma BuyOneGetOneHalves(price: real)
    ensures CalculateDiscount(BuyOneGetOne, price) == price - CalculateDiscount(BuyOneGetOne, price)
    ensures 0.0 <= price ==> WithinPrice(BuyOneGetOne, price)
  {
  }
}
