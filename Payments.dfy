/**
 * The payment processors: each decides whether it accepts a charge of a
 * given amount and names its payment method. The simulated gateways differ
 * only in their ceiling; neither keeps any state.
 */
module Payments {

  datatype PaymentProcessor = CreditCard | PayPal

  /** The largest charge each processor accepts. */
  function Ceiling(p: PaymentProcessor): (limit: real)
    ensures 0.0 < limit
  {
    match p
    case CreditCard => 10000.0
    case PayPal => 5000.0
  }

  /** Whether the processor accepts a charge of amount: exactly the positive amounts up to its ceiling. */
  predicate ProcessPayment(p: PaymentProcessor, amount: real): (accepted: bool)
    ensures accepted <==> 0.0 < amount <= Ceiling(p)
  {
    match p
    case CreditCard => amount > 0.0 && amount <= 10000.0
    case PayPal => amount > 0.0 && amount <= 5000.0
  }

  /** The processor's display name. */
  function PaymentMethod(p: PaymentProcessor): (name: string)
    ensures name != []
  {
    match p
    case CreditCard => "Credit Card"
    case PayPal => "PayPal"
  }

  /** The name identifies the processor: two processors have the same name exactly when they are the same. */
  lemma PaymentMethodNames(p: PaymentProcessor, q: PaymentProcessor)
    ensures PaymentMethod(p) == PaymentMethod(q) <==> p == q
  {
    if p != q {
      assert PaymentMethod(CreditCard)[0] != PaymentMethod(PayPal)[0];
    }
  }

  /**
   * Every processor accepts exactly the positive amounts up to its ceiling:
   * it declines 0 and every negative amount, accepts the ceiling itself and
   * declines everything above it.
   */
  lemma AcceptanceWindow(p: PaymentProcessor, amount: real)
    ensures ProcessPayment(p, amount) <==> 0.0 < amount <= Ceiling(p)
    ensures amount <= 0.0 ==> !ProcessPayment(p, amount)
    ensures ProcessPayment(p, Ceiling(p))
    ensures Ceiling(p) < amount ==> !ProcessPayment(p, amount)
  {
  }

  /** The concrete boundary values of both processors. */
  lemma Boundaries()
    ensures ProcessPayment(CreditCard, 10000.0) && !ProcessPayment(CreditCard, 10000.01)
    ensures !ProcessPayment(CreditCard, 0.0)
    ensures ProcessPayment(PayPal, 5000.0) && !ProcessPayment(PayPal, 6000.0)
    ensures !ProcessPayment(PayPal, 0.0)
  {
  }

  /** Every amount PayPal accepts, the credit card accepts as well. */
  lemma PayPalWithinCreditCard(amount: real)
    ensures ProcessPayment(PayPal, amount) ==> ProcessPayment(CreditCard, amount)
  {
  }

  /**
   * The converse fails: the credit card accepts exactly the amounts PayPal
   * accepts together with those in (5000, 10000].
   */
  lemma CreditCardBeyondPayPal()
    ensures exists amount :: ProcessPayment(CreditCard, amount) && !ProcessPayment(PayPal, amount)
    ensures forall amount ::
      (ProcessPayment(CreditCard, amount) && !ProcessPayment(PayPal, amount)) <==> 5000.0 < amount <= 10000.0
  {
    assert ProcessPayment(CreditCard, 7500.0) && !ProcessPayment(PayPal, 7500.0);
  }
}
