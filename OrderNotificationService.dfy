/**
 * Notification of an order's result: a customer-facing message is composed
 * from the payment outcome and the pricing, and handed to a channel.
 */
module OrderNotificationService {
  import opened Format
  import opened OrderPricingService
  import opened OrderPaymentService
  import opened Notifications

  const SuccessPrefix: string := "Order processed successfully! Amount: $"
  const FailurePrefix: string := "Order failed! Payment of $"
  const FailureSuffix: string := " was declined."

  /** The message for an accepted payment of amount. */
  function SuccessMessage(amount: real): string {
    SuccessPrefix + Fmt(amount)
  }

  /** The message for a declined payment of amount. */
  function FailureMessage(amount: real): string {
    FailurePrefix + Fmt(amount) + FailureSuffix
  }

  /** The status message for an order; it reads only the success flag and the final amount. */
  function ComposeMessage(paymentOutcome: PaymentOutcome, pricing: OrderPricing): (message: string)
    ensures paymentOutcome.successful ==> message == SuccessMessage(pricing.finalAmount)
    ensures !paymentOutcome.successful ==> message == FailureMessage(pricing.finalAmount)
  {
    if paymentOutcome.successful then
      "Order processed successfully! Amount: $" + Fmt(pricing.finalAmount)
    else
      "Order failed! Payment of $" + Fmt(pricing.finalAmount) + " was declined."
  }

  /** Strings that differ at a position inside both prefixes differ whatever follows. */
  lemma DifferAt(u: string, x: string, v: string, y: string, i: nat)
    requires i < |u| && i < |v| && u[i] != v[i]
    ensures u + x != v + y
  {
    assert (u + x)[i] == u[i];
    assert (v + y)[i] == v[i];
  }

  /** A success message and a failure message never coincide, whatever their amounts. */
  lemma SuccessDiffersFromFailure(a: real, b: real)
    ensures SuccessMessage(a) != FailureMessage(b)
  {
    assert SuccessPrefix[6] == 'p' && FailurePrefix[6] == 'f';
    DifferAt(SuccessPrefix, Fmt(a), FailurePrefix, Fmt(b) + FailureSuffix, 6);
    assert FailureMessage(b) == FailurePrefix + (Fmt(b) + FailureSuffix);
  }

  /**
   * Two composed messages are equal exactly when the outcomes agree on
   * success and the final amounts have the same text: the message depends on
   * nothing else (not the original amount, the discount, its label or the
   * payment method), and it determines both.
   */
  lemma ComposeMessageDetermines(o1: PaymentOutcome, p1: OrderPricing, o2: PaymentOutcome, p2: OrderPricing)
    ensures ComposeMessage(o1, p1) == ComposeMessage(o2, p2)
      <==> o1.successful == o2.successful && Fmt(p1.finalAmount) == Fmt(p2.finalAmount)
  {
    if ComposeMessage(o1, p1) == ComposeMessage(o2, p2) {
      if o1.successful != o2.successful {
        if o1.successful {
          SuccessDiffersFromFailure(p1.finalAmount, p2.finalAmount);
        } else {
          SuccessDiffersFromFailure(p2.finalAmount, p1.finalAmount);
        }
      } else if o1.successful {
        CancelPrefix(SuccessPrefix, Fmt(p1.finalAmount), Fmt(p2.finalAmount));
      } else {
        CancelAround(FailurePrefix, Fmt(p1.finalAmount), Fmt(p2.finalAmount), FailureSuffix);
      }
    }
  }

  /**
   * On amounts with at most MaxFractionDigits decimal places the text of the
   * amount loses nothing, so two messages are equal exactly when the
   * outcomes agree on success and the final amounts are equal.
   */
  lemma ComposeMessageDeterminesAmount(o1: PaymentOutcome, p1: OrderPricing, o2: PaymentOutcome, p2: OrderPricing)
    requires ShortDecimal(p1.finalAmount) && ShortDecimal(p2.finalAmount)
    ensures ComposeMessage(o1, p1) == ComposeMessage(o2, p2)
      <==> o1.successful == o2.successful && p1.finalAmount == p2.finalAmount
  {
    ComposeMessageDetermines(o1, p1, o2, p2);
    FmtInjective(p1.finalAmount, p2.finalAmount);
  }

  /** Hands message to the channel: it is delivered once, unchanged. */
  method Send(notificationService: NotificationSink, message: string)
    modifies notificationService
    ensures notificationService.delivered == old(notificationService.delivered) + [message]
  {
    notificationService.SendNotification(message);
  }
}
