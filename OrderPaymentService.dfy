/**
 * Payment of an order: the chosen processor is charged and its decision is
 * kept, with the processor's method name, as an immutable outcome.
 */
module OrderPaymentService {
  import Payments

  /** The result of one payment attempt; its getters are the destructors. */
  datatype PaymentOutcome = PaymentOutcome(paymentMethod: string, successful: bool)

  /**
   * The record gives back what it was built from, and two records are equal
   * exactly when both fields are.
   */
  lemma OutcomeRecord(paymentMethod: string, successful: bool, other: PaymentOutcome)
    ensures var r := PaymentOutcome(paymentMethod, successful);
      r.paymentMethod == paymentMethod && r.successful == successful
      && (r == other <==> other.paymentMethod == paymentMethod && other.successful == successful)
  {
  }

  /** Charges paymentProcessor with amountToCharge. */
  function ProcessPayment(paymentProcessor: Payments.PaymentProcessor, amountToCharge: real): (r: PaymentOutcome)
    ensures r.successful <==> 0.0 < amountToCharge <= Payments.Ceiling(paymentProcessor)
    ensures r.paymentMethod == Payments.PaymentMethod(paymentProcessor)
  {
    var success := Payments.ProcessPayment(paymentProcessor, amountToCharge);
    PaymentOutcome(Payments.PaymentMethod(paymentProcessor), success)
  }

  /** A zero charge on the credit card is declined, and the outcome names the card. */
  lemma CreditCardZeroDeclined()
    ensures ProcessPayment(Payments.CreditCard, 0.0) == PaymentOutcome("Credit Card", false)
  {
  }
}
