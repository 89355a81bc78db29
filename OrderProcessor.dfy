/**
 * The order coordinator. It is wired once, at construction, to a payment
 * processor and a notification channel, and for each order it prices the
 * amount with the given discount strategy, charges the final amount, sends
 * one status message and reports whether the payment went through.
 *
 * The coordinator codes this pipeline inline; the three services code it a
 * second time. OrderProcessor.ProcessOrder is proved to agree with the
 * composition of the services, Checkout, and so with
 * ProcessOrderThroughServices, which runs the services' own operations.
 */
module Orders {
  import opened Format
  import opened Discounts
  import Payments
  import opened OrderPricingService
  import opened OrderPaymentService
  import opened OrderNotificationService
  import opened Notifications

  /** Everything one order produces: its pricing, its payment outcome and its message. */
  datatype Receipt = Receipt(pricing: OrderPricing, outcome: PaymentOutcome, message: string)

  /** The pipeline as the three services compose it. */
  function Checkout(paymentProcessor: Payments.PaymentProcessor, orderAmount: real, discountCalculator: Discount): (r: Receipt)
    ensures r.pricing.originalAmount == orderAmount
    ensures r.pricing.finalAmount == orderAmount - CalculateDiscount(discountCalculator, orderAmount)
    ensures r.outcome.successful <==> Payments.ProcessPayment(paymentProcessor, r.pricing.finalAmount)
    ensures r.outcome.paymentMethod == Payments.PaymentMethod(paymentProcessor)
    ensures r.message == if r.outcome.successful then SuccessMessage(r.pricing.finalAmount)
                         else FailureMessage(r.pricing.finalAmount)
  {
    var pricing := ApplyDiscount(orderAmount, discountCalculator);
    var outcome := OrderPaymentService.ProcessPayment(paymentProcessor, pricing.finalAmount);
    Receipt(pricing, outcome, ComposeMessage(outcome, pricing))
  }

  class OrderProcessor {
    const paymentProcessor: Payments.PaymentProcessor
    const notificationService: NotificationSink

    constructor (paymentProcessor: Payments.PaymentProcessor, notificationService: NotificationSink)
      ensures this.paymentProcessor == paymentProcessor
      ensures this.notificationService == notificationService
    {
      this.paymentProcessor := paymentProcessor;
      this.notificationService := notificationService;
    }

    /**
     * Processes one order. The amount charged is the order amount less the
     * discount, the result is the processor's decision on it, and exactly one
     * message, the one the services would compose, is delivered.
     * customerName only appears in console output, which is not modelled.
     */
    method ProcessOrder(customerName: string, orderAmount: real, discountCalculator: Discount)
      returns (paymentSuccess: bool)
      modifies notificationService
      ensures paymentSuccess == Payments.ProcessPayment(
        paymentProcessor, orderAmount - CalculateDiscount(discountCalculator, orderAmount))
      ensures paymentSuccess == Checkout(paymentProcessor, orderAmount, discountCalculator).outcome.successful
      ensures notificationService.delivered
        == old(notificationService.delivered) + [Checkout(paymentProcessor, orderAmount, discountCalculator).message]
    {
      var discount := CalculateDiscount(discountCalculator, orderAmount);
      var finalAmount := orderAmount - discount;
      paymentSuccess := Payments.ProcessPayment(paymentProcessor, finalAmount);
      var message: string;
      if paymentSuccess {
        message := "Order processed successfully! Amount: $" + Fmt(finalAmount);
      } else {
        message := "Order failed! Payment of $" + Fmt(finalAmount) + " was declined.";
      }
      notificationService.SendNotification(message);
    }
  }

  /**
   * The pipeline run through the services themselves: price, charge,
   * compose and send. It delivers the message Checkout composes and reports
   * Checkout's decision.
   */
  method ProcessOrderThroughServices(paymentProcessor: Payments.PaymentProcessor, notificationService: NotificationSink,
                                     orderAmount: real, discountCalculator: Discount)
    returns (paymentSuccess: bool)
    modifies notificationService
    ensures paymentSuccess == Checkout(paymentProcessor, orderAmount, discountCalculator).outcome.successful
    ensures notificationService.delivered
      == old(notificationService.delivered) + [Checkout(paymentProcessor, orderAmount, discountCalculator).message]
  {
    var pricing := ApplyDiscount(orderAmount, discountCalculator);
    var outcome := OrderPaymentService.ProcessPayment(paymentProcessor, pricing.finalAmount);
    var message := ComposeMessage(outcome, pricing);
    Send(notificationService, message);
    paymentSuccess := outcome.successful;
  }

  /**
   * The coordinator and the services agree: run on the same order, with
   * channels that have delivered the same messages so far, they give the
   * same answer and leave the same messages delivered.
   */
  method CoordinatorAgreesWithServices(processor: OrderProcessor, channel: NotificationSink, customerName: string,
                                       orderAmount: real, discountCalculator: Discount)
    returns (viaCoordinator: bool, viaServices: bool)
    requires channel != processor.notificationService
    requires channel.delivered == processor.notificationService.delivered
    modifies processor.notificationService, channel
    ensures viaCoordinator == viaServices
    ensures channel.delivered == processor.notificationService.delivered
  {
    viaCoordinator := processor.ProcessOrder(customerName, orderAmount, discountCalculator);
    viaServices := ProcessOrderThroughServices(processor.paymentProcessor, channel, orderAmount, discountCalculator);
  }

  /**
   * Processing the same order twice gives the same answer and delivers the
   * same message twice: the coordinator keeps no state of its own between
   * orders, and its processor and channel are fixed.
   */
  method ProcessTwice(processor: OrderProcessor, customerName: string, orderAmount: real, discountCalculator: Discount)
    returns (first: bool, second: bool)
    modifies processor.notificationService
    ensures first == second
    ensures var m := Checkout(processor.paymentProcessor, orderAmount, discountCalculator).message;
      processor.notificationService.delivered == old(processor.notificationService.delivered) + [m, m]
  {
    first := processor.ProcessOrder(customerName, orderAmount, discountCalculator);
    second := processor.ProcessOrder(customerName, orderAmount, discountCalculator);
  }

  /** An admissible strategy on a non-negative order charges between 0 and the order amount. */
  lemma ChargeWithinOrder(paymentProcessor: Payments.PaymentProcessor, orderAmount: real, discountCalculator: Discount)
    requires 0.0 <= orderAmount && Admissible(discountCalculator)
    ensures var r := Checkout(paymentProcessor, orderAmount, discountCalculator);
      0.0 <= r.pricing.finalAmount <= orderAmount && r.pricing.Consistent()
  {
    AdmissibleGivesBounded(orderAmount, discountCalculator);
  }

  /** A fixed discount that covers the whole order leaves nothing to charge, and every processor declines it. */
  lemma FullyDiscountedOrderDeclined(paymentProcessor: Payments.PaymentProcessor, orderAmount: real, discountAmount: real)
    requires orderAmount <= discountAmount
    ensures var r := Checkout(paymentProcessor, orderAmount, FixedAmountDiscount(discountAmount));
      r.pricing.finalAmount == 0.0 && !r.outcome.successful && r.message == FailureMessage(0.0)
  {
  }
}
