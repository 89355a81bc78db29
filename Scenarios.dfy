/**
 * The orders of the repository's tests, plus three more: no discount on the
 * credit card, 6000.0 on PayPal, and $100 off a 50.0 order. Each is stated
 * as the complete receipt the pipeline produces. Messages are written as
 * their fixed template text followed by the amount's text.
 */
module Scenarios {
  import opened Format
  import opened Discounts
  import opened Payments
  import opened OrderPricingService
  import opened OrderPaymentService
  import opened OrderNotificationService
  import opened Orders

  /** The text of the whole amount n, given its digits. */
  lemma WholeText(n: nat, digits: string)
    requires NatDigits(n) == digits
    ensures Fmt(n as real) == digits + ".0"
  {
    WholeAmount(n);
  }

  /** The receipt of an order, assembled from the strategy's and the processor's answers. */
  lemma ReceiptFrom(
    p: PaymentProcessor, orderAmount: real, d: Discount,
    discount: real, finalAmount: real, discountLabel: string, accepted: bool, message: string)
    requires CalculateDiscount(d, orderAmount) == discount && orderAmount - discount == finalAmount
    requires DiscountType(d) == discountLabel
    requires Payments.ProcessPayment(p, finalAmount) == accepted
    requires message == if accepted then SuccessMessage(finalAmount) else FailureMessage(finalAmount)
    ensures Checkout(p, orderAmount, d) == Receipt(
      OrderPricing(orderAmount, discount, finalAmount, discountLabel),
      PaymentOutcome(PaymentMethod(p), accepted),
      message)
  {
    var pricing := ApplyDiscount(orderAmount, d);
    assert pricing == OrderPricing(orderAmount, discount, finalAmount, discountLabel);
    var outcome := OrderPaymentService.ProcessPayment(p, finalAmount);
    assert outcome == PaymentOutcome(PaymentMethod(p), accepted);
    assert ComposeMessage(outcome, pricing) == message;
  }

  /** Credit card, 100.0 at 10% off: 10.0 off, 90.0 charged and accepted. */
  lemma CreditCardTenPercent()
    ensures Checkout(CreditCard, 100.0, PercentageDiscount(10.0)) == Receipt(
      OrderPricing(100.0, 10.0, 90.0, "10.0" + "% Discount"),
      PaymentOutcome("Credit Card", true),
      "Order processed successfully! Amount: $" + "90.0")
  {
    WholeText(10, "10");
    WholeText(90, "90");
    ReceiptFrom(CreditCard, 100.0, PercentageDiscount(10.0), 10.0, 90.0, "10.0" + "% Discount", true,
      "Order processed successfully! Amount: $" + "90.0");
  }

  /** Credit card, 80.0 with Buy One Get One Free: half off, 40.0 charged and accepted. */
  lemma CreditCardBuyOneGetOne()
    ensures Checkout(CreditCard, 80.0, BuyOneGetOne) == Receipt(
      OrderPricing(80.0, 40.0, 40.0, "Buy One Get One Free"),
      PaymentOutcome("Credit Card", true),
      "Order processed successfully! Amount: $" + "40.0")
  {
    WholeText(40, "40");
    ReceiptFrom(CreditCard, 80.0, BuyOneGetOne, 40.0, 40.0, "Buy One Get One Free", true,
      "Order processed successfully! Amount: $" + "40.0");
  }

  /** Credit card, 120.0 at 15% off: 18.0 off, 102.0 charged and accepted. */
  lemma CreditCardFifteenPercent()
    ensures Checkout(CreditCard, 120.0, PercentageDiscount(15.0)) == Receipt(
      OrderPricing(120.0, 18.0, 102.0, "15.0" + "% Discount"),
      PaymentOutcome("Credit Card", true),
      "Order processed successfully! Amount: $" + "102.0")
  {
    WholeText(15, "15");
    WholeText(102, "102");
    ReceiptFrom(CreditCard, 120.0, PercentageDiscount(15.0), 18.0, 102.0, "15.0" + "% Discount", true,
      "Order processed successfully! Amount: $" + "102.0");
  }

  /** PayPal, 90.0 with $20 off: 70.0 charged and accepted. */
  lemma PayPalTwentyOff()
    ensures Checkout(PayPal, 90.0, FixedAmountDiscount(20.0)) == Receipt(
      OrderPricing(90.0, 20.0, 70.0, "$" + "20.0" + " Off"),
      PaymentOutcome("PayPal", true),
      "Order processed successfully! Amount: $" + "70.0")
  {
    WholeText(20, "20");
    WholeText(70, "70");
    ReceiptFrom(PayPal, 90.0, FixedAmountDiscount(20.0), 20.0, 70.0, "$" + "20.0" + " Off", true,
      "Order processed successfully! Amount: $" + "70.0");
  }

  /** Credit card, 100.0 without discount: 100.0 charged and accepted. */
  lemma CreditCardNoDiscount()
    ensures Checkout(CreditCard, 100.0, NoDiscount) == Receipt(
      OrderPricing(100.0, 0.0, 100.0, "No Discount"),
      PaymentOutcome("Credit Card", true),
      "Order processed successfully! Amount: $" + "100.0")
  {
    WholeText(100, "100");
    ReceiptFrom(CreditCard, 100.0, NoDiscount, 0.0, 100.0, "No Discount", true,
      "Order processed successfully! Amount: $" + "100.0");
  }

  /** PayPal, 6000.0 without discount: above PayPal's ceiling, declined. */
  lemma PayPalOverCeiling()
    ensures Checkout(PayPal, 6000.0, NoDiscount) == Receipt(
      OrderPricing(6000.0, 0.0, 6000.0, "No Discount"),
      PaymentOutcome("PayPal", false),
      "Order failed! Payment of $" + "6000.0" + " was declined.")
  {
    WholeText(6000, "6000");
    ReceiptFrom(PayPal, 6000.0, NoDiscount, 0.0, 6000.0, "No Discount", false,
      "Order failed! Payment of $" + "6000.0" + " was declined.");
  }

  /** Credit card, 50.0 with $100 off: the discount is clamped to 50.0, nothing is left to charge, declined. */
  lemma CreditCardFullyDiscounted()
    ensures Checkout(CreditCard, 50.0, FixedAmountDiscount(100.0)) == Receipt(
      OrderPricing(50.0, 50.0, 0.0, "$" + "100.0" + " Off"),
      PaymentOutcome("Credit Card", false),
      "Order failed! Payment of $" + "0.0" + " was declined.")
  {
    WholeText(100, "100");
    WholeText(0, "0");
    ReceiptFrom(CreditCard, 50.0, FixedAmountDiscount(100.0), 50.0, 0.0, "$" + "100.0" + " Off", false,
      "Order failed! Payment of $" + "0.0" + " was declined.");
  }

  /** The first test scenario run through a freshly wired coordinator: accepted, and its message delivered once. */
  method CoordinatorScenario() returns (result: bool, channel: Notifications.NotificationSink)
    ensures result
    ensures channel.delivered == ["Order processed successfully! Amount: $" + "90.0"]
  {
    channel := new Notifications.NotificationSink();
    var processor := new OrderProcessor(CreditCard, channel);
    result := processor.ProcessOrder("Test Customer", 100.0, PercentageDiscount(10.0));
    CreditCardTenPercent();
  }
}
