/**
 * Pricing of an order: the discount strategy is applied to the order amount
 * and the result is kept as an immutable breakdown.
 */
module OrderPricingService {
  import opened Discounts

  /** An order's pricing after discount; its getters are the destructors. */
  datatype OrderPricing = OrderPricing(
    originalAmount: real,
    discountApplied: real,
    finalAmount: real,
    discountLabel: string)
  {
    /** The breakdown adds up: what was taken off plus what is left is the original. */
    predicate Consistent() {
      originalAmount == discountApplied + finalAmount
    }

    /** The breakdown describes a proper discount: nothing is added and not more than everything is taken off. */
    predicate Bounded() {
      0.0 <= finalAmount <= originalAmount
    }
  }

  /**
   * The record gives back what it was built from, and two records are equal
   * exactly when all four fields are.
   */
  lemma PricingRecord(originalAmount: real, discountApplied: real, finalAmount: real, discountLabel: string, other: OrderPricing)
    ensures var r := OrderPricing(originalAmount, discountApplied, finalAmount, discountLabel);
      r.originalAmount == originalAmount && r.discountApplied == discountApplied
      && r.finalAmount == finalAmount && r.discountLabel == discountLabel
      && (r == other <==> other.originalAmount == originalAmount && other.discountApplied == discountApplied
                          && other.finalAmount == finalAmount && other.discountLabel == discountLabel)
  {
  }

  /** The pricing of orderAmount under the given strategy. */
  function ApplyDiscount(orderAmount: real, discountCalculator: Discount): (r: OrderPricing)
    ensures r.originalAmount == orderAmount
    ensures r.discountApplied == CalculateDiscount(discountCalculator, orderAmount)
    ensures r.discountLabel == DiscountType(discountCalculator)
    ensures r.Consistent()
  {
    var discount := CalculateDiscount(discountCalculator, orderAmount);
    var finalAmount := orderAmount - discount;
    OrderPricing(orderAmount, discount, finalAmount, DiscountType(discountCalculator))
  }

  /**
   * If the strategy keeps its contract at this amount, the final amount lies
   * between 0 and the original amount, and conversely.
   */
  lemma BoundedIffWithinPrice(orderAmount: real, discountCalculator: Discount)
    ensures ApplyDiscount(orderAmount, discountCalculator).Bounded()
      <==> WithinPrice(discountCalculator, orderAmount)
  {
  }

  /** An admissible strategy on a non-negative amount always yields a bounded pricing. */
  lemma AdmissibleGivesBounded(orderAmount: real, discountCalculator: Discount)
    requires 0.0 <= orderAmount && Admissible(discountCalculator)
    ensures ApplyDiscount(orderAmount, discountCalculator).Bounded()
  {
    if discountCalculator.PercentageDiscount? {
      PercentageBounds(discountCalculator.percentage, orderAmount);
    }
  }

  /** Without a discount the final amount is the original amount. */
  lemma NoDiscountKeepsAmount(orderAmount: real)
    ensures ApplyDiscount(orderAmount, NoDiscount).finalAmount == orderAmount
    ensures ApplyDiscount(orderAmount, NoDiscount).discountLabel == "No Discount"
  {
  }
}
